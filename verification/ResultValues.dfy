/** Result metadata: arbitrary object graphs, shared or cyclic, are copied into
    plain JSON trees, or refused. */
module ResultValues {
  import opened Common

  /** A value of the host language: a scalar, a reference to a container, or
      something that is not JSON at all. */
  datatype Value = Null | Flag(flag: bool) | Whole(number: int) | Float(size: real, finite: bool) | Text(text: string)
                 | Ref(id: nat) | Alien

  /** A key is a string or not. */
  datatype Entry = Entry(key: Option<string>, item: Value)

  datatype Node = ListNode(items: seq<Value>) | TupleNode(items: seq<Value>) | DictNode(entries: seq<Entry>)

  type Heap = map<nat, Node>

  datatype Field = Field(key: string, value: Plain)

  datatype Plain = PNull | PFlag(flag: bool) | PWhole(number: int) | PFloat(size: real) | PText(text: string)
                 | PList(items: seq<Plain>) | PObject(fields: seq<Field>)

  /** The content guard: secret-like text, and names that hold credentials. */
  datatype Guard = Guard(flagged: string -> bool, credential: string -> bool)

  datatype Problem = TooDeep | Secret | NotFinite | Recursive | BadKey | NotJson

  const MAX_DEPTH := 16

  predicate Allowed(g: Guard, text: string) {
    text == "" || !g.flagged(text)
  }

  // ---------------------------------------------------------------- the copying

  function EmptyOnly(h: Heap, v: Value): Result<Plain, Problem> {
    match v
    case Null => Ok(PNull)
    case Text(text) => if text == "" then Ok(PText("")) else Err(Secret)
    case Ref(id) =>
      if id !in h then Err(Secret)
      else (match h[id]
            case ListNode(items) => if items == [] then Ok(PList([])) else Err(Secret)
            case TupleNode(items) => if items == [] then Ok(PList([])) else Err(Secret)
            case DictNode(entries) => if entries == [] then Ok(PObject([])) else Err(Secret))
    case _ => Err(Secret)
  }

  function Normalised(g: Guard, h: Heap, v: Value, seen: set<nat>, depth: nat, credential: bool): Result<Plain, Problem>
    decreases if depth <= MAX_DEPTH then MAX_DEPTH + 1 - depth else 0, 0, 0
  {
    if depth > MAX_DEPTH then Err(TooDeep)
    else if credential then EmptyOnly(h, v)
    else match v
      case Text(text) => if Allowed(g, text) then Ok(PText(text)) else Err(Secret)
      case Null => Ok(PNull)
      case Flag(flag) => Ok(PFlag(flag))
      case Whole(number) => Ok(PWhole(number))
      case Float(size, finite) => if finite then Ok(PFloat(size)) else Err(NotFinite)
      case Alien => Err(NotJson)
      case Ref(id) =>
        if id in seen then Err(Recursive)
        else if id !in h then Err(NotJson)
        else match h[id]
          case DictNode(entries) =>
            var fields :- NormalisedFields(g, h, entries, seen + {id}, depth + 1);
            Ok(PObject(fields))
          case ListNode(items) =>
            var plain :- NormalisedItems(g, h, items, seen + {id}, depth + 1);
            Ok(PList(plain))
          case TupleNode(items) =>
            var plain :- NormalisedItems(g, h, items, seen + {id}, depth + 1);
            Ok(PList(plain))
  }

  function NormalisedItems(g: Guard, h: Heap, items: seq<Value>, seen: set<nat>, depth: nat): Result<seq<Plain>,
      Problem>
    decreases if depth <= MAX_DEPTH then MAX_DEPTH + 1 - depth else 0, 1, |items|
  {
    if items == [] then Ok([])
    else
      var first :- Normalised(g, h, items[0], seen, depth, false);
      var rest :- NormalisedItems(g, h, items[1..], seen, depth);
      Ok([first] + rest)
  }

  function NormalisedFields(g: Guard, h: Heap, entries: seq<Entry>, seen: set<nat>, depth: nat): Result<seq<Field>,
      Problem>
    decreases if depth <= MAX_DEPTH then MAX_DEPTH + 1 - depth else 0, 1, |entries|
  {
    if entries == [] then Ok([])
    else if entries[0].key.None? then Err(BadKey)
    else if !Allowed(g, entries[0].key.value) then Err(Secret)
    else
      var first :- Normalised(g, h, entries[0].item, seen, depth, g.credential(entries[0].key.value));
      var rest :- NormalisedFields(g, h, entries[1..], seen, depth);
      Ok([Field(entries[0].key.value, first)] + rest)
  }

  /** What the loops still have to do, joined to what they have done. */
  function Joined<T>(done: seq<T>, rest: Result<seq<T>, Problem>): Result<seq<T>, Problem> {
    if rest.Ok? then Ok(done + rest.value) else rest
  }

  lemma JoinedGrows<T>(done: seq<T>, next: T, rest: Result<seq<T>, Problem>)
    ensures Joined([], rest) == rest
    ensures rest.Ok? ==> Joined(done + [next], rest) == Joined(done, Ok([next] + rest.value))
  {
    if rest.Ok? {
      assert [] + rest.value == rest.value;
      assert done + [next] + rest.value == done + ([next] + rest.value);
    }
  }

  method Normalise(g: Guard, h: Heap, v: Value, seen: set<nat>, depth: nat, credential: bool)
    returns (reply: Result<Plain, Problem>)
    ensures reply == Normalised(g, h, v, seen, depth, credential)
    ensures depth > 16 ==> reply == Err(TooDeep)
    ensures depth <= 16 && !credential && v.Text? ==>
      reply == if v.text != "" && g.flagged(v.text) then Err(Secret) else Ok(PText(v.text))
    ensures depth <= 16 && credential && v.Text? ==> reply == if v.text == "" then Ok(PText("")) else Err(Secret)
    decreases if depth <= MAX_DEPTH then MAX_DEPTH + 1 - depth else 0
  {
    if depth > MAX_DEPTH {
      return Err(TooDeep);
    }
    if credential {
      return EmptyOnly(h, v);
    }
    match v {
      case Text(text) => return if text == "" || !g.flagged(text) then Ok(PText(text)) else Err(Secret);
      case Null => return Ok(PNull);
      case Flag(flag) => return Ok(PFlag(flag));
      case Whole(number) => return Ok(PWhole(number));
      case Float(size, finite) => return if finite then Ok(PFloat(size)) else Err(NotFinite);
      case Alien => return Err(NotJson);
      case Ref(id) =>
        if id in seen {
          return Err(Recursive);
        }
        if id !in h {
          return Err(NotJson);
        }
        if h[id].DictNode? {
          var entries := h[id].entries;
          var fields: seq<Field> := [];
          assert entries[0..] == entries;
          JoinedGrows([], Field("", PNull), NormalisedFields(g, h, entries, seen + {id}, depth + 1));
          for i := 0 to |entries|
            invariant NormalisedFields(g, h, entries, seen + {id}, depth + 1)
                      == Joined(fields, NormalisedFields(g, h, entries[i..], seen + {id}, depth + 1))
          {
            if entries[i].key.None? {
              return Err(BadKey);
            }
            var key := entries[i].key.value;
            if key != "" && g.flagged(key) {
              return Err(Secret);
            }
            var item := Normalise(g, h, entries[i].item, seen + {id}, depth + 1, g.credential(key));
            if item.Err? {
              return Err(item.error);
            }
            assert entries[i..][1..] == entries[i + 1..];
            JoinedGrows(fields, Field(key, item.value), NormalisedFields(g, h, entries[i + 1..], seen + {id}, depth + 1));
            fields := fields + [Field(key, item.value)];
          }
          assert entries[|entries|..] == [] && fields + [] == fields;
          return Ok(PObject(fields));
        }
        var items := h[id].items;
        var plain: seq<Plain> := [];
        assert items[0..] == items;
        JoinedGrows([], PNull, NormalisedItems(g, h, items, seen + {id}, depth + 1));
        for i := 0 to |items|
          invariant NormalisedItems(g, h, items, seen + {id}, depth + 1)
                    == Joined(plain, NormalisedItems(g, h, items[i..], seen + {id}, depth + 1))
        {
          var item := Normalise(g, h, items[i], seen + {id}, depth + 1, false);
          if item.Err? {
            return Err(item.error);
          }
          assert items[i..][1..] == items[i + 1..];
          JoinedGrows(plain, item.value, NormalisedItems(g, h, items[i + 1..], seen + {id}, depth + 1));
          plain := plain + [item.value];
        }
        assert items[|items|..] == [] && plain + [] == plain;
        return Ok(PList(plain));
    }
  }

  // -------------------------------------------------------------- what it means

  /** The tree is the value, with tuples written as lists. */
  predicate Unfolds(h: Heap, v: Value, p: Plain)
    decreases p
  {
    match p
    case PNull => v.Null?
    case PFlag(flag) => v == Flag(flag)
    case PWhole(number) => v == Whole(number)
    case PFloat(size) => v == Float(size, true)
    case PText(text) => v == Text(text)
    case PList(items) =>
      && v.Ref? && v.id in h && !h[v.id].DictNode? && |h[v.id].items| == |items|
      && forall i :: 0 <= i < |items| ==> Unfolds(h, h[v.id].items[i], items[i])
    case PObject(fields) =>
      && v.Ref? && v.id in h && h[v.id].DictNode? && |h[v.id].entries| == |fields|
      && forall i :: 0 <= i < |fields| ==>
           h[v.id].entries[i].key == Some(fields[i].key) && Unfolds(h, h[v.id].entries[i].item, fields[i].value)
  }

  /** No flagged text or key, and nothing but empty values under credential names. */
  predicate Clean(g: Guard, p: Plain, credential: bool)
    decreases p
  {
    if credential then p in {PNull, PText(""), PList([]), PObject([])}
    else match p
      case PText(text) => Allowed(g, text)
      case PList(items) => forall i :: 0 <= i < |items| ==> Clean(g, items[i], false)
      case PObject(fields) =>
        forall i :: 0 <= i < |fields| ==> Allowed(g, fields[i].key) && Clean(g, fields[i].value, g.credential(fields[i].key))
      case _ => true
  }

  /** The tree's nesting fits in what is left of the limit. */
  predicate Shallow(p: Plain, depth: nat)
    decreases p
  {
    depth <= MAX_DEPTH
    && match p
       case PList(items) => forall i :: 0 <= i < |items| ==> Shallow(items[i], depth + 1)
       case PObject(fields) => forall i :: 0 <= i < |fields| ==> Shallow(fields[i].value, depth + 1)
       case _ => true
  }

  // ---------------------------------------------------------------- soundness

  /** What comes out is the input, clean and within the limit. */
  lemma {:induction false} NormalisedIsSound(g: Guard, h: Heap, v: Value, seen: set<nat>, depth: nat, credential: bool)
    requires Normalised(g, h, v, seen, depth, credential).Ok?
    ensures var p := Normalised(g, h, v, seen, depth, credential).value;
      Unfolds(h, v, p) && Clean(g, p, credential) && Shallow(p, depth)
    decreases if depth <= MAX_DEPTH then MAX_DEPTH + 1 - depth else 0, 0, 0
  {
    if !credential && v.Ref? {
      if h[v.id].DictNode? {
        FieldsAreSound(g, h, h[v.id].entries, seen + {v.id}, depth + 1);
      } else {
        ItemsAreSound(g, h, h[v.id].items, seen + {v.id}, depth + 1);
      }
    }
  }

  lemma {:induction false} ItemsAreSound(g: Guard, h: Heap, items: seq<Value>, seen: set<nat>, depth: nat)
    requires NormalisedItems(g, h, items, seen, depth).Ok?
    ensures var out := NormalisedItems(g, h, items, seen, depth).value;
      && |out| == |items|
      && forall i :: 0 <= i < |items| ==> Unfolds(h, items[i], out[i]) && Clean(g, out[i], false) && Shallow(out[i], depth)
    decreases if depth <= MAX_DEPTH then MAX_DEPTH + 1 - depth else 0, 1, |items|
  {
    if items != [] {
      NormalisedIsSound(g, h, items[0], seen, depth, false);
      ItemsAreSound(g, h, items[1..], seen, depth);
    }
  }

  lemma {:induction false} FieldsAreSound(g: Guard, h: Heap, entries: seq<Entry>, seen: set<nat>, depth: nat)
    requires NormalisedFields(g, h, entries, seen, depth).Ok?
    ensures var out := NormalisedFields(g, h, entries, seen, depth).value;
      && |out| == |entries|
      && forall i :: 0 <= i < |entries| ==>
           && entries[i].key == Some(out[i].key) && Allowed(g, out[i].key)
           && Unfolds(h, entries[i].item, out[i].value)
           && Clean(g, out[i].value, g.credential(out[i].key)) && Shallow(out[i].value, depth)
    decreases if depth <= MAX_DEPTH then MAX_DEPTH + 1 - depth else 0, 1, |entries|
  {
    if entries != [] {
      NormalisedIsSound(g, h, entries[0].item, seen, depth, g.credential(entries[0].key.value));
      FieldsAreSound(g, h, entries[1..], seen, depth);
    }
  }

  // -------------------------------------------------------------- completeness

  lemma {:induction false} UnfoldingIsUnique(h: Heap, v: Value, a: Plain, b: Plain)
    requires Unfolds(h, v, a) && Unfolds(h, v, b)
    ensures a == b
    decreases a
  {
    match a
    case PList(items) =>
      forall i | 0 <= i < |items| ensures items[i] == b.items[i] {
        UnfoldingIsUnique(h, h[v.id].items[i], items[i], b.items[i]);
      }
    case PObject(fields) =>
      forall i | 0 <= i < |fields| ensures fields[i] == b.fields[i] {
        UnfoldingIsUnique(h, h[v.id].entries[i].item, fields[i].value, b.fields[i].value);
      }
    case _ =>
  }

  /** Every container on the way down unfolds only to trees this one is part of. */
  ghost predicate Ancestors(h: Heap, seen: set<nat>, p: Plain) {
    forall id, t :: id in seen && Unfolds(h, Ref(id), t) ==> p < t
  }

  lemma AncestorsBelow(h: Heap, seen: set<nat>, id: nat, p: Plain, child: Plain)
    requires Ancestors(h, seen, p) && Unfolds(h, Ref(id), p) && child < p
    ensures Ancestors(h, seen + {id}, child)
  {
    forall x, t | x in seen + {id} && Unfolds(h, Ref(x), t) ensures child < t {
      if x == id {
        UnfoldingIsUnique(h, Ref(id), p, t);
      }
    }
  }

  /** A clean value that unfolds to a tree within the limit is copied to it. */
  lemma {:induction false} NormalisedIsComplete(g: Guard, h: Heap, v: Value, p: Plain, seen: set<nat>, depth: nat,
      credential: bool)
    requires Unfolds(h, v, p) && Clean(g, p, credential) && Shallow(p, depth) && Ancestors(h, seen, p)
    ensures Normalised(g, h, v, seen, depth, credential) == Ok(p)
    decreases p, 1, 0
  {
    if !credential && v.Ref? {
      assert v.id !in seen;
      match p
      case PList(items) =>
        forall i | 0 <= i < |items| ensures Ancestors(h, seen + {v.id}, items[i]) {
          AncestorsBelow(h, seen, v.id, p, items[i]);
        }
        ItemsAreComplete(g, h, h[v.id].items, items, seen + {v.id}, depth + 1, p);
      case PObject(fields) =>
        forall i | 0 <= i < |fields| ensures Ancestors(h, seen + {v.id}, fields[i].value) {
          AncestorsBelow(h, seen, v.id, p, fields[i].value);
        }
        FieldsAreComplete(g, h, h[v.id].entries, fields, seen + {v.id}, depth + 1, p);
    }
  }

  lemma {:induction false} ItemsAreComplete(g: Guard, h: Heap, items: seq<Value>, out: seq<Plain>, seen: set<nat>,
      depth: nat, whole: Plain)
    requires |items| == |out|
    requires forall i :: 0 <= i < |out| ==>
      && out[i] < whole && Unfolds(h, items[i], out[i]) && Clean(g, out[i], false) && Shallow(out[i], depth)
      && Ancestors(h, seen, out[i])
    ensures NormalisedItems(g, h, items, seen, depth) == Ok(out)
    decreases whole, 0, |out|
  {
    if out != [] {
      NormalisedIsComplete(g, h, items[0], out[0], seen, depth, false);
      ItemsAreComplete(g, h, items[1..], out[1..], seen, depth, whole);
      assert out == [out[0]] + out[1..];
    }
  }

  lemma {:induction false} FieldsAreComplete(g: Guard, h: Heap, entries: seq<Entry>, out: seq<Field>, seen: set<nat>,
      depth: nat, whole: Plain)
    requires |entries| == |out|
    requires forall i :: 0 <= i < |out| ==>
      && out[i].value < whole && entries[i].key == Some(out[i].key) && Allowed(g, out[i].key)
      && Unfolds(h, entries[i].item, out[i].value) && Clean(g, out[i].value, g.credential(out[i].key))
      && Shallow(out[i].value, depth) && Ancestors(h, seen, out[i].value)
    ensures NormalisedFields(g, h, entries, seen, depth) == Ok(out)
    decreases whole, 0, |out|
  {
    if out != [] {
      NormalisedIsComplete(g, h, entries[0].item, out[0].value, seen, depth, g.credential(out[0].key));
      FieldsAreComplete(g, h, entries[1..], out[1..], seen, depth, whole);
      assert out == [out[0]] + out[1..];
    }
  }

  // ------------------------------------------------------------- the main claims

  /** A value is accepted, as one particular tree, exactly when it unfolds to that
      tree, the tree is clean, and it is no deeper than the limit. */
  lemma NormalisesExactly(g: Guard, h: Heap, v: Value, p: Plain)
    ensures Normalised(g, h, v, {}, 0, false) == Ok(p) <==> Unfolds(h, v, p) && Clean(g, p, false) && Shallow(p, 0)
  {
    if Normalised(g, h, v, {}, 0, false) == Ok(p) {
      NormalisedIsSound(g, h, v, {}, 0, false);
    }
    if Unfolds(h, v, p) && Clean(g, p, false) && Shallow(p, 0) {
      NormalisedIsComplete(g, h, v, p, {}, 0, false);
    }
  }

  /** Normalising a result again returns it, wherever and however it is stored. */
  lemma NormalisingTwiceChangesNothing(g: Guard, h: Heap, v: Value, again: Heap, stored: Value)
    requires Normalised(g, h, v, {}, 0, false).Ok?
    requires Unfolds(again, stored, Normalised(g, h, v, {}, 0, false).value)
    ensures Normalised(g, again, stored, {}, 0, false) == Normalised(g, h, v, {}, 0, false)
  {
    var p := Normalised(g, h, v, {}, 0, false).value;
    NormalisesExactly(g, h, v, p);
    NormalisesExactly(g, again, stored, p);
  }

  /** One container holds another directly, as an item or under a key. */
  predicate Contains(h: Heap, a: nat, b: nat) {
    && a in h
    && (if h[a].DictNode? then exists i :: 0 <= i < |h[a].entries| && h[a].entries[i].item == Ref(b)
        else exists i :: 0 <= i < |h[a].items| && h[a].items[i] == Ref(b))
  }

  predicate IsPath(h: Heap, ids: seq<nat>) {
    forall i :: 0 <= i < |ids| - 1 ==> Contains(h, ids[i], ids[i + 1])
  }

  /** What a container holds directly unfolds to a smaller tree. */
  lemma ContainedUnfolds(h: Heap, a: nat, b: nat, p: Plain) returns (t: Plain)
    requires Contains(h, a, b) && Unfolds(h, Ref(a), p)
    ensures Unfolds(h, Ref(b), t) && t < p
  {
    if h[a].DictNode? {
      var i :| 0 <= i < |h[a].entries| && h[a].entries[i].item == Ref(b);
      t := p.fields[i].value;
    } else {
      var i :| 0 <= i < |h[a].items| && h[a].items[i] == Ref(b);
      t := p.items[i];
    }
  }

  lemma {:induction false} PathUnfolds(h: Heap, ids: seq<nat>, k: nat, p: Plain) returns (t: Plain)
    requires IsPath(h, ids) && k < |ids| && Unfolds(h, Ref(ids[0]), p)
    ensures Unfolds(h, Ref(ids[k]), t) && (k == 0 ==> t == p) && (k > 0 ==> t < p)
    decreases k
  {
    if k == 0 {
      t := p;
    } else {
      assert Contains(h, ids[0], ids[1]);
      var next := ContainedUnfolds(h, ids[0], ids[1], p);
      assert IsPath(h, ids[1..]) by {
        forall i | 0 <= i < |ids[1..]| - 1 ensures Contains(h, ids[1..][i], ids[1..][i + 1]) {
          assert Contains(h, ids[i + 1], ids[i + 2]);
        }
      }
      t := PathUnfolds(h, ids[1..], k - 1, next);
    }
  }

  /** A value from which a cycle can be reached, through lists, tuples and
      dictionaries of any number, is always refused. */
  lemma CyclicValuesAreRefused(g: Guard, h: Heap, ids: seq<nat>, i: nat, j: nat)
    requires IsPath(h, ids) && i < j < |ids| && ids[i] == ids[j]
    ensures Normalised(g, h, Ref(ids[0]), {}, 0, false).Err?
  {
    if Normalised(g, h, Ref(ids[0]), {}, 0, false).Ok? {
      NormalisedIsSound(g, h, Ref(ids[0]), {}, 0, false);
      var t := PathUnfolds(h, ids, i, Normalised(g, h, Ref(ids[0]), {}, 0, false).value);
      assert IsPath(h, ids[i..]) by {
        forall k | 0 <= k < |ids[i..]| - 1 ensures Contains(h, ids[i..][k], ids[i..][k + 1]) {
          assert Contains(h, ids[i + k], ids[i + k + 1]);
        }
      }
      var u := PathUnfolds(h, ids[i..], j - i, t);
      UnfoldingIsUnique(h, Ref(ids[i]), t, u);
      assert false;
    }
  }

  // -------------------------------------------------- acceptance, node by node

  /** This tree occurs in that one. */
  predicate Within(p: Plain, q: Plain)
    decreases p
  {
    || q == p
    || (match p
        case PList(items) => exists i :: 0 <= i < |items| && Within(items[i], q)
        case PObject(fields) => exists i :: 0 <= i < |fields| && Within(fields[i].value, q)
        case _ => false)
  }

  /** Something lies this many containers down. */
  predicate Reaches(p: Plain, n: nat)
    decreases p
  {
    || n == 0
    || (match p
        case PList(items) => exists i :: 0 <= i < |items| && Reaches(items[i], n - 1)
        case PObject(fields) => exists i :: 0 <= i < |fields| && Reaches(fields[i].value, n - 1)
        case _ => false)
  }

  lemma {:induction false} ShallowIsNotReaching(p: Plain, depth: nat)
    requires depth <= 16
    ensures Shallow(p, depth) <==> !Reaches(p, 17 - depth)
    decreases p
  {
    match p
    case PList(items) =>
      if depth < 16 {
        forall i | 0 <= i < |items| ensures Shallow(items[i], depth + 1) <==> !Reaches(items[i], 16 - depth) {
          ShallowIsNotReaching(items[i], depth + 1);
        }
      }
    case PObject(fields) =>
      if depth < 16 {
        forall i | 0 <= i < |fields|
          ensures Shallow(fields[i].value, depth + 1) <==> !Reaches(fields[i].value, 16 - depth) {
          ShallowIsNotReaching(fields[i].value, depth + 1);
        }
      }
    case _ =>
  }

  /** A text that is neither empty nor flagged, a flag, a number, an empty container. */
  predicate Unflagged(g: Guard, q: Plain) {
    match q
    case PText(text) => text == "" || !g.flagged(text)
    case PObject(fields) =>
      forall i :: 0 <= i < |fields| ==>
        && (fields[i].key == "" || !g.flagged(fields[i].key))
        && (g.credential(fields[i].key) ==> fields[i].value in {PNull, PText(""), PList([]), PObject([])})
    case _ => true
  }

  ghost predicate Unflaggeds(g: Guard, p: Plain) {
    forall q :: Within(p, q) ==> Unflagged(g, q)
  }

  lemma {:induction false} CleanIsUnflagged(g: Guard, p: Plain)
    ensures Clean(g, p, false) <==> Unflaggeds(g, p)
    decreases p
  {
    match p
    case PList(items) =>
      forall i | 0 <= i < |items| ensures Clean(g, items[i], false) <==> Unflaggeds(g, items[i]) {
        CleanIsUnflagged(g, items[i]);
      }
      if Unflaggeds(g, p) {
        forall i, q | 0 <= i < |items| && Within(items[i], q) ensures Unflagged(g, q) {
          assert Within(p, q);
        }
      }
    case PObject(fields) =>
      forall i | 0 <= i < |fields| ensures Clean(g, fields[i].value, false) <==> Unflaggeds(g, fields[i].value) {
        CleanIsUnflagged(g, fields[i].value);
      }
      assert Within(p, p);
      if Unflaggeds(g, p) {
        forall i, q | 0 <= i < |fields| && Within(fields[i].value, q) ensures Unflagged(g, q) {
          assert Within(p, q);
        }
      }
    case _ =>
      assert Within(p, p);
  }

  /** A value that unfolds to a tree at all is accepted exactly when nothing lies more
      than sixteen containers down, no text or name in it is flagged, and whatever it
      has under a credential name is empty. */
  lemma AcceptedExactlyWhen(g: Guard, h: Heap, v: Value, p: Plain)
    requires Unfolds(h, v, p)
    ensures Normalised(g, h, v, {}, 0, false) == Ok(p) <==>
      !Reaches(p, 17) && forall q :: Within(p, q) ==> Unflagged(g, q)
  {
    NormalisesExactly(g, h, v, p);
    ShallowIsNotReaching(p, 0);
    CleanIsUnflagged(g, p);
  }
}
