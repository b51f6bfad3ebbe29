/** `ProtobufMessageFlattener`: a depth-first walk over a message's fields
    that fills an insertion-ordered map from camel-joined field paths to
    values, using a shared path stack that every branch pushes to and pops
    from. */
module Flattener {
  import opened Common
  import opened Strings
  import opened OrderedDict
  import opened Records

  /** The `result` dictionary: path key to emitted value, in insertion order. */
  type FlatMap = Assoc<string, Value>

  // ---------------------------------------------------------------------------
  // Path keys (`_full_path`)
  // ---------------------------------------------------------------------------

  /** The list `_full_path` builds: every stack segment split on `_`, in order. */
  function Pieces(stack: seq<string>): (r: seq<string>)
    ensures |r| >= |stack|
    ensures forall k :: 0 <= k < |r| ==> '_' !in r[k]
  {
    if stack == [] then []
    else
      SplitNoSep(stack[|stack| - 1], '_');
      Pieces(stack[..|stack| - 1]) + Split(stack[|stack| - 1], '_')
  }

  /** What `_full_path` needs not to raise `IndexError`: a first piece to
      start from, and a first character in every later piece. */
  predicate PathOk(stack: seq<string>)
  {
    |stack| > 0 && forall k :: 1 <= k < |Pieces(stack)| ==> Pieces(stack)[k] != []
  }

  /** Every segment of the stack is a valid name. */
  predicate SegmentsOk(stack: seq<string>)
  {
    forall k :: 0 <= k < |stack| ==> ValidName(stack[k])
  }

  /** `capitalize_first_char`. */
  function Capitalize(s: string): (r: string)
    requires s != []
  {
    [UpperChar(s[0])] + s[1..]
  }

  /** The first piece unchanged, then every later piece capitalized, with no
      separator. */
  function CamelJoin(pieces: seq<string>): string
    requires |pieces| >= 1
    requires forall k :: 1 <= k < |pieces| ==> pieces[k] != []
  {
    if |pieces| == 1 then pieces[0]
    else CamelJoin(pieces[..|pieces| - 1]) + Capitalize(pieces[|pieces| - 1])
  }

  /** The custom-field key of a path stack. */
  function PathKey(stack: seq<string>): string
    requires PathOk(stack)
  {
    CamelJoin(Pieces(stack))
  }

  /** `f"[{index}]"`, the segment pushed for a repeated message's element. */
  function IndexMarker(j: nat): string
  {
    "[" + NatToString(j) + "]"
  }

  /** `_full_path`: extends a list with the pieces of every segment, then
      joins them. */
  method FullPath(stack: seq<string>) returns (key: string)
    requires PathOk(stack)
    ensures key == PathKey(stack)
  {
    var pieces: seq<string> := [];
    var i := 0;
    while i < |stack|
      invariant 0 <= i <= |stack|
      invariant pieces == Pieces(stack[..i])
    {
      assert stack[..i + 1][..i] == stack[..i];
      pieces := pieces + Split(stack[i], '_');
      i := i + 1;
    }
    assert stack[..|stack|] == stack;
    key := pieces[0];
    var k := 1;
    while k < |pieces|
      invariant 1 <= k <= |pieces|
      invariant key == CamelJoin(pieces[..k])
    {
      assert pieces[..k + 1][..k] == pieces[..k];
      key := key + Capitalize(pieces[k]);
      k := k + 1;
    }
    assert pieces[..|pieces|] == pieces;
  }

  /** A stack of valid names can be turned into a key. */
  lemma {:induction false} SegmentsPathOk(stack: seq<string>)
    requires |stack| > 0 && SegmentsOk(stack)
    ensures PathOk(stack)
    ensures forall k :: 0 <= k < |Pieces(stack)| ==> Pieces(stack)[k] != []
  {
    if |stack| > 1 {
      SegmentsPathOk(stack[..|stack| - 1]);
    }
  }

  /** An index marker is a valid name and a single piece. */
  lemma IndexMarkerValid(j: nat)
    ensures Split(IndexMarker(j), '_') == [IndexMarker(j)]
    ensures ValidName(IndexMarker(j))
  {
    var m := IndexMarker(j);
    assert forall k :: 0 <= k < |m| ==> m[k] == '[' || m[k] == ']' || '0' <= m[k] <= '9';
    SplitFree(m, '_');
  }

  /** Keys never contain `_`: every underscore of the stack became a piece
      boundary. */
  lemma {:induction false} CamelJoinNoUnderscore(pieces: seq<string>)
    requires |pieces| >= 1
    requires forall k :: 1 <= k < |pieces| ==> pieces[k] != []
    requires forall k :: 0 <= k < |pieces| ==> '_' !in pieces[k]
    ensures '_' !in CamelJoin(pieces)
  {
    if |pieces| > 1 {
      CamelJoinNoUnderscore(pieces[..|pieces| - 1]);
      var p := pieces[|pieces| - 1];
      assert UpperChar(p[0]) != '_';
      assert forall c :: c in Capitalize(p) ==> c == UpperChar(p[0]) || c in p[1..];
    }
  }

  lemma PathKeyNoUnderscore(stack: seq<string>)
    requires PathOk(stack)
    ensures '_' !in PathKey(stack)
  {
    CamelJoinNoUnderscore(Pieces(stack));
  }

  /** The key starts with the stack's first piece, unchanged. */
  lemma {:induction false} PathKeyStartsWithFirstPiece(stack: seq<string>)
    requires PathOk(stack)
    ensures IsPrefix(Pieces(stack)[0], PathKey(stack))
  {
    var ps := Pieces(stack);
    CamelJoinPrefix(ps);
  }

  lemma {:induction false} CamelJoinPrefix(ps: seq<string>)
    requires |ps| >= 1
    requires forall k :: 1 <= k < |ps| ==> ps[k] != []
    ensures IsPrefix(ps[0], CamelJoin(ps))
  {
    if |ps| > 1 {
      CamelJoinPrefix(ps[..|ps| - 1]);
    }
  }

  /** Pushing a segment that is one piece and does not start with a
      lower-case letter (an index marker) appends that segment verbatim. */
  lemma PathKeyPushVerbatim(stack: seq<string>, seg: string)
    requires PathOk(stack)
    requires seg != [] && '_' !in seg && !('a' <= seg[0] <= 'z')
    ensures Pieces(stack + [seg]) == Pieces(stack) + [seg]
    ensures PathOk(stack + [seg])
    ensures PathKey(stack + [seg]) == PathKey(stack) + seg
  {
    SplitFree(seg, '_');
    PiecesPush(stack, seg);
    var ps := Pieces(stack) + [seg];
    assert ps[..|ps| - 1] == Pieces(stack);
    assert Capitalize(seg) == seg by {
      assert UpperChar(seg[0]) == seg[0];
      assert [seg[0]] + seg[1..] == seg;
    }
  }

  /** Pushing a segment appends its pieces. */
  lemma PiecesPush(stack: seq<string>, seg: string)
    ensures Pieces(stack + [seg]) == Pieces(stack) + Split(seg, '_')
  {
    assert (stack + [seg])[..|stack|] == stack;
  }

  /** The key of a stack with an index marker on top is the key below it
      followed by the marker. */
  lemma PathKeyIndexMarker(stack: seq<string>, j: nat)
    requires PathOk(stack)
    ensures PathOk(stack + [IndexMarker(j)])
    ensures PathKey(stack + [IndexMarker(j)]) == PathKey(stack) + IndexMarker(j)
  {
    IndexMarkerValid(j);
    assert Split(IndexMarker(j), '_')[0] == IndexMarker(j);
    PathKeyPushVerbatim(stack, IndexMarker(j));
  }

  lemma SplitTwo(a: string, b: string, c: char)
    requires c !in a && c !in b
    ensures Split(a + [c] + b, c) == [a, b]
  {
    SplitFree(a, c);
    SplitAppend(a, c, b);
  }

  /** `["event_source", "vendor"]` gives `eventSourceVendor`. */
  lemma PathKeyExample(stack: seq<string>)
    requires stack == ["event_source", "vendor"]
    ensures PathOk(stack)
    ensures PathKey(stack) == "eventSourceVendor"
  {
    assert stack[0] == "event" + "_" + "source";
    PathKeyTwo(stack, "event", "source", "vendor");
    assert Capitalize("source") == "Source";
    assert Capitalize("vendor") == "Vendor";
  }

  /** A stack `[x_y, z]` of underscore-free names gives `x` + `Y` + `Z`. */
  lemma PathKeyTwo(stack: seq<string>, x: string, y: string, z: string)
    requires stack == [x + "_" + y, z]
    requires y != [] && z != []
    requires '_' !in x && '_' !in y && '_' !in z
    ensures PathOk(stack)
    ensures PathKey(stack) == x + Capitalize(y) + Capitalize(z)
  {
    PiecesTwo(x + "_" + y, z);
    SplitTwo(x, y, '_');
    SplitFree(z, '_');
    var ps := [x, y, z];
    assert Pieces(stack) == ps;
    assert ps[..2] == [x, y] && ps[..2][..1] == [x];
    assert CamelJoin(ps[..2]) == x + Capitalize(y);
    assert CamelJoin(ps) == CamelJoin(ps[..2]) + Capitalize(z);
  }

  lemma PiecesTwo(x: string, y: string)
    ensures Pieces([x, y]) == Split(x, '_') + Split(y, '_')
  {
    assert [x, y][..1] == [x];
    assert [x][..0] == [];
    assert Pieces([x]) == Split(x, '_');
  }

  // Case-insensitive reference: the key is the stack's text without
  // underscores, up to the case of each piece's first character.

  /** Concatenation of a sequence of strings. */
  function Concat(ss: seq<string>): string
  {
    if ss == [] then [] else Concat(ss[..|ss| - 1]) + ss[|ss| - 1]
  }

  /** `s` with every `c` removed. */
  function Without(s: string, c: char): string
  {
    if s == [] then []
    else Without(s[..|s| - 1], c) + (if s[|s| - 1] == c then [] else [s[|s| - 1]])
  }

  lemma {:induction false} ConcatAppend(a: seq<string>, b: seq<string>)
    ensures Concat(a + b) == Concat(a) + Concat(b)
    decreases |b|
  {
    if b == [] {
      assert a + b == a;
    } else {
      ConcatAppend(a, b[..|b| - 1]);
      assert (a + b)[..|a + b| - 1] == a + b[..|b| - 1];
      assert (a + b)[|a + b| - 1] == b[|b| - 1];
    }
  }

  lemma {:induction false} WithoutAppend(x: string, y: string, c: char)
    ensures Without(x + y, c) == Without(x, c) + Without(y, c)
    decreases |y|
  {
    if y == [] {
      assert x + y == x;
    } else {
      WithoutAppend(x, y[..|y| - 1], c);
      assert (x + y)[..|x + y| - 1] == x + y[..|y| - 1];
      assert (x + y)[|x + y| - 1] == y[|y| - 1];
    }
  }

  /** Gluing the pieces of a split back together drops exactly the separators. */
  lemma {:induction false} ConcatSplit(s: string, c: char)
    ensures Concat(Split(s, c)) == Without(s, c)
    decreases |s|
  {
    var i := IndexOf(s, c);
    if i == |s| {
      assert Split(s, c) == [s];
      ConcatOne(s);
      WithoutFree(s, c);
    } else {
      ConcatSplit(s[i + 1..], c);
      ConcatSplitStep(s, c);
    }
  }

  /** The inductive step of `ConcatSplit`: the first piece, the separator
      dropped, then the rest. */
  lemma ConcatSplitStep(s: string, c: char)
    requires IndexOf(s, c) < |s|
    requires Concat(Split(s[IndexOf(s, c) + 1..], c)) == Without(s[IndexOf(s, c) + 1..], c)
    ensures Concat(Split(s, c)) == Without(s, c)
  {
    ConcatSplitHead(s, c);
    WithoutAtSeparator(s, c);
  }

  lemma ConcatSplitHead(s: string, c: char)
    requires IndexOf(s, c) < |s|
    ensures Concat(Split(s, c)) == s[..IndexOf(s, c)] + Concat(Split(s[IndexOf(s, c) + 1..], c))
  {
    var i := IndexOf(s, c);
    var rest := Split(s[i + 1..], c);
    assert Split(s, c) == [s[..i]] + rest;
    ConcatAppend([s[..i]], rest);
    ConcatOne(s[..i]);
  }

  /** Removing `c` from a string whose first `c` is at `i`. */
  lemma WithoutAtSeparator(s: string, c: char)
    requires IndexOf(s, c) < |s|
    ensures Without(s, c) == s[..IndexOf(s, c)] + Without(s[IndexOf(s, c) + 1..], c)
  {
    var i := IndexOf(s, c);
    var head, rest := s[..i], s[i + 1..];
    assert s == head + [c] + rest;
    WithoutFreePrefix(s, c);
    WithoutAround(head, c, rest);
  }

  lemma WithoutAround(head: string, c: char, rest: string)
    requires Without(head, c) == head
    ensures Without(head + [c] + rest, c) == head + Without(rest, c)
  {
    var a := head + [c];
    assert head + [c] + rest == a + rest;
    WithoutAppend(a, rest, c);
    WithoutAppend(head, [c], c);
    WithoutOne(c);
    assert Without(a, c) == head;
  }

  /** The text before the first `c` holds no `c`. */
  lemma WithoutFreePrefix(s: string, c: char)
    ensures Without(s[..IndexOf(s, c)], c) == s[..IndexOf(s, c)]
  {
    var head := s[..IndexOf(s, c)];
    assert forall j :: 0 <= j < |head| ==> head[j] != c;
    WithoutFree(head, c);
  }

  lemma WithoutOne(c: char)
    ensures Without([c], c) == []
  {
    assert [c][..0] == [];
  }

  /** Removing a character a string does not hold changes nothing. */
  lemma {:induction false} WithoutFree(s: string, c: char)
    requires forall j :: 0 <= j < |s| ==> s[j] != c
    ensures Without(s, c) == s
    decreases |s|
  {
    if s != [] {
      WithoutFree(s[..|s| - 1], c);
    }
  }

  lemma ConcatOne(e: string)
    ensures Concat([e]) == e
  {
    assert [e][..0] == [];
  }

  lemma {:induction false} ConcatPieces(stack: seq<string>)
    ensures Concat(Pieces(stack)) == Without(Concat(stack), '_')
  {
    if stack != [] {
      var init := stack[..|stack| - 1];
      var last := stack[|stack| - 1];
      ConcatPieces(init);
      ConcatAppend(Pieces(init), Split(last, '_'));
      ConcatSplit(last, '_');
      WithoutAppend(Concat(init), last, '_');
    }
  }

  lemma LowerAppend(x: string, y: string)
    ensures Lower(x + y) == Lower(x) + Lower(y)
  {
  }

  lemma {:induction false} CamelJoinFolds(ps: seq<string>)
    requires |ps| >= 1
    requires forall k :: 1 <= k < |ps| ==> ps[k] != []
    ensures Lower(CamelJoin(ps)) == Lower(Concat(ps))
  {
    if |ps| == 1 {
      assert ps[..0] == [];
    } else {
      var init := ps[..|ps| - 1];
      var p := ps[|ps| - 1];
      CamelJoinFolds(init);
      LowerAppend(CamelJoin(init), Capitalize(p));
      LowerAppend(Concat(init), p);
      UpperLower(p[0]);
      assert Lower(Capitalize(p)) == Lower(p);
    }
  }

  /** Independent description of `_full_path`: ignoring letter case, the key
      is the concatenated stack with its underscores removed, and it holds no
      underscore at all. */
  lemma PathKeyFolds(stack: seq<string>)
    requires PathOk(stack)
    ensures Lower(PathKey(stack)) == Lower(Without(Concat(stack), '_'))
    ensures '_' !in PathKey(stack)
  {
    CamelJoinFolds(Pieces(stack));
    ConcatPieces(stack);
    PathKeyNoUnderscore(stack);
  }

  // ---------------------------------------------------------------------------
  // The walk (`flatten_object`), as a specification
  // ---------------------------------------------------------------------------

  predicate WellNamedFields(fs: seq<Field>)
  {
    forall k :: 0 <= k < |fs| ==> WellNamedField(fs[k])
  }

  predicate WellNamedMsgs(ms: seq<Msg>)
  {
    forall k :: 0 <= k < |ms| ==> WellNamed(ms[k])
  }

  /** The value `flatten_object` stores for a field that is not recursed into:
      the value itself, an unwrapped `.value`, a member name, or the elements
      joined with `"; "`. `None` is the `KeyError` of an undeclared enum number. */
  function LeafValue(c: Content): (r: Option<Value>)
    requires !c.Nested? && !c.NestedList? && !IsUnsetMessage(c)
    ensures c.Enum? ==> (r.Some? <==> c.number in c.t.members)
    ensures c.Enum? && r.Some? ==> r.value == Str(c.t.members[c.number])
    ensures c.Enums? ==> (r.Some? <==> forall k :: 0 <= k < |c.numbers| ==> c.numbers[k] in c.t.members)
    ensures r.Some? && (c.Enum? || c.Enums?) ==> r.value.Str?
  {
    match c
    case Scalar(v) => Some(v)
    case Scalars(items) => Some(Str(Join(items, "; ")))
    case Enum(t, n) =>
      (match EnumName(t, n)
       case None => None
       case Some(name) => Some(Str(name)))
    case Enums(t, ns) =>
      (match EnumNames(t, ns)
       case None => None
       case Some(names) => Some(Str(Join(names, "; "))))
    case Wrapped(w) => Some(w.value)
    case Wrappeds(items) => Some(Str(Join(items, "; ")))
  }

  /** What one field adds to `acc` when the stack below it is `path`. */
  function FlattenField(f: Field, path: seq<string>, acc: FlatMap): Option<FlatMap>
    requires SegmentsOk(path) && WellNamedField(f)
  {
    if IsUnsetMessage(f.content) then Some(acc)
    else
      var p := path + [f.name];
      match f.content
      case NestedList(ms) => FlattenItems(ms, p, acc)
      case Nested(sub) => FlattenMsg(sub.value, p, acc)
      case _ =>
        SegmentsPathOk(p);
        match LeafValue(f.content)
        case None => None
        case Some(v) => Some(Put(acc, PathKey(p), v))
  }

  /** The fields of a message, in declaration order. */
  function FlattenFields(fs: seq<Field>, path: seq<string>, acc: FlatMap): Option<FlatMap>
    requires SegmentsOk(path) && WellNamedFields(fs)
  {
    if fs == [] then Some(acc)
    else
      match FlattenFields(fs[..|fs| - 1], path, acc)
      case None => None
      case Some(a) => FlattenField(fs[|fs| - 1], path, a)
  }

  /** The elements of a repeated message field, in index order, each under its
      own index marker. */
  function FlattenItems(ms: seq<Msg>, p: seq<string>, acc: FlatMap): Option<FlatMap>
    requires SegmentsOk(p) && WellNamedMsgs(ms)
  {
    if ms == [] then Some(acc)
    else
      match FlattenItems(ms[..|ms| - 1], p, acc)
      case None => None
      case Some(a) =>
        IndexMarkerValid(|ms| - 1);
        FlattenMsg(ms[|ms| - 1], p + [IndexMarker(|ms| - 1)], a)
  }

  function FlattenMsg(m: Msg, path: seq<string>, acc: FlatMap): Option<FlatMap>
    requires SegmentsOk(path) && WellNamed(m)
  {
    FlattenFields(m.fields, path, acc)
  }

  /** `flatten_object(obj)` with a fresh stack and a fresh dictionary. */
  function Flatten(obj: Msg): Option<FlatMap>
    requires WellNamed(obj)
  {
    FlattenMsg(obj, [], [])
  }

  // ---------------------------------------------------------------------------
  // The walk, as the source runs it
  // ---------------------------------------------------------------------------

  /** A failure anywhere in a prefix of the fields is the failure of the walk. */
  lemma {:induction false} FieldsFailureSticks(fs: seq<Field>, k: nat, path: seq<string>, acc: FlatMap)
    requires SegmentsOk(path) && WellNamedFields(fs) && k <= |fs|
    requires FlattenFields(fs[..k], path, acc).None?
    ensures FlattenFields(fs, path, acc).None?
    decreases |fs| - k
  {
    if k < |fs| {
      assert fs[..k + 1][..k] == fs[..k];
      FieldsFailureSticks(fs, k + 1, path, acc);
    } else {
      assert fs[..k] == fs;
    }
  }

  /** The shared state of `flatten_object`: the path stack and the result
      dictionary that every recursive call pushes to, pops from and updates. */
  class ProtobufMessageFlattener {
    var pathStack: seq<string>
    var result: FlatMap

    constructor ()
      ensures pathStack == [] && result == []
    {
      pathStack := [];
      result := [];
    }

    /** Walks `obj`'s fields in declaration order. On a normal return the stack
        is as it was on entry and the dictionary holds the specification's
        result; `ok` is false exactly when an enum number has no member (the
        source raises `KeyError` then, leaving both half-updated). */
    method FlattenObject(obj: Msg) returns (ok: bool)
      requires WellNamed(obj) && SegmentsOk(pathStack)
      modifies this
      decreases obj, 2
      ensures ok <==> FlattenMsg(obj, old(pathStack), old(result)).Some?
      ensures ok ==> pathStack == old(pathStack)
      ensures ok ==> Some(result) == FlattenMsg(obj, old(pathStack), old(result))
    {
      ghost var path0, acc0 := pathStack, result;
      var fields := obj.fields;
      var i := 0;
      while i < |fields|
        invariant 0 <= i <= |fields|
        invariant pathStack == path0
        invariant FlattenFields(fields[..i], path0, acc0) == Some(result)
      {
        assert fields[..i + 1][..i] == fields[..i];
        assert fields[..i + 1][i] == fields[i];
        ok := FlattenOneField(fields[i]);
        if !ok {
          FieldsFailureSticks(fields, i + 1, path0, acc0);
          assert fields[..|fields|] == fields;
          return;
        }
        i := i + 1;
      }
      assert fields[..|fields|] == fields;
      ok := true;
    }

    /** The body of `flatten_object`'s loop for one field: skip an unset
        message, or push the name, emit or recurse by kind, and pop. */
    method FlattenOneField(f: Field) returns (ok: bool)
      requires WellNamedField(f) && SegmentsOk(pathStack)
      modifies this
      decreases f, 1
      ensures ok <==> FlattenField(f, old(pathStack), old(result)).Some?
      ensures ok ==> pathStack == old(pathStack)
      ensures ok ==> Some(result) == FlattenField(f, old(pathStack), old(result))
    {
      if IsUnsetMessage(f.content) {
        return true;
      }
      pathStack := pathStack + [f.name];
      match f.content {
        case NestedList(ms) =>
          ok := FlattenElements(ms);
        case Nested(sub) =>
          ok := FlattenObject(sub.value);
        case _ =>
          var v := LeafValue(f.content);
          if v.None? {
            return false;
          }
          SegmentsPathOk(pathStack);
          var key := FullPath(pathStack);
          result := Put(result, key, v.value);
          ok := true;
      }
      if ok {
        pathStack := pathStack[..|pathStack| - 1];
      }
    }

    /** The loop over a repeated message field: push `[j]`, recurse, pop. */
    method FlattenElements(ms: seq<Msg>) returns (ok: bool)
      requires WellNamedMsgs(ms) && SegmentsOk(pathStack)
      modifies this
      decreases ms, 0
      ensures ok <==> FlattenItems(ms, old(pathStack), old(result)).Some?
      ensures ok ==> pathStack == old(pathStack)
      ensures ok ==> Some(result) == FlattenItems(ms, old(pathStack), old(result))
    {
      ghost var p, acc0 := pathStack, result;
      var j := 0;
      while j < |ms|
        invariant 0 <= j <= |ms|
        invariant pathStack == p
        invariant FlattenItems(ms[..j], p, acc0) == Some(result)
      {
        assert ms[..j + 1][..j] == ms[..j];
        assert ms[..j + 1][j] == ms[j];
        IndexMarkerValid(j);
        pathStack := pathStack + [IndexMarker(j)];
        ok := FlattenObject(ms[j]);
        if !ok {
          ItemsFailureSticks(ms, j + 1, p, acc0);
          return;
        }
        pathStack := pathStack[..|pathStack| - 1];
        j := j + 1;
      }
      assert ms[..|ms|] == ms;
      ok := true;
    }
  }

  /** A failure at any element of a repeated field is the failure of the field. */
  lemma {:induction false} ItemsFailureSticks(ms: seq<Msg>, k: nat, p: seq<string>, acc: FlatMap)
    requires SegmentsOk(p) && WellNamedMsgs(ms) && k <= |ms|
    requires FlattenItems(ms[..k], p, acc).None?
    ensures FlattenItems(ms, p, acc).None?
    decreases |ms| - k
  {
    if k < |ms| {
      assert ms[..k + 1][..k] == ms[..k];
      ItemsFailureSticks(ms, k + 1, p, acc);
    } else {
      assert ms[..k] == ms;
    }
  }

  /** `flatten_object(obj)` called without a stack or a dictionary: both start
      empty, and the result is the specification's. */
  method FlattenRecord(obj: Msg) returns (r: Option<FlatMap>)
    requires WellNamed(obj)
    ensures r == Flatten(obj)
  {
    var flattener := new ProtobufMessageFlattener();
    var ok := flattener.FlattenObject(obj);
    r := if ok then Some(flattener.result) else None;
  }

  // ---------------------------------------------------------------------------
  // Properties of the walk
  // ---------------------------------------------------------------------------

  /** A leaf field that is not skipped adds exactly one entry, at its own path
      key, holding its leaf value; every other key keeps its value and at most
      one key is new. */
  lemma LeafEntry(f: Field, path: seq<string>, acc: FlatMap)
    requires SegmentsOk(path) && WellNamedField(f)
    requires !f.content.Nested? && !f.content.NestedList? && !IsUnsetMessage(f.content)
    requires LeafValue(f.content).Some?
    ensures PathOk(path + [f.name])
    ensures FlattenField(f, path, acc).Some?
    ensures var r := FlattenField(f, path, acc).value;
      && Get(r, PathKey(path + [f.name])) == LeafValue(f.content)
      && (forall k :: k != PathKey(path + [f.name]) ==> Get(r, k) == Get(acc, k))
      && |r| <= |acc| + 1
  {
    SegmentsPathOk(path + [f.name]);
  }

  /** An optional message field with nothing set, wrapper or not, is as if it
      were not declared: it contributes no key at all. */
  lemma UnsetFieldInvisible(a: seq<Field>, f: Field, b: seq<Field>, path: seq<string>, acc: FlatMap)
    requires SegmentsOk(path) && WellNamedFields(a + [f] + b)
    requires IsUnsetMessage(f.content)
    ensures WellNamedFields(a + b)
    ensures FlattenFields(a + [f] + b, path, acc) == FlattenFields(a + b, path, acc)
  {
    WellNamedParts(a, f, b);
    UnsetFieldSkip(a, f, path, acc);
    FieldsAppend(a + [f], b, path, acc);
    FieldsAppend(a, b, path, acc);
  }

  lemma WellNamedParts(a: seq<Field>, f: Field, b: seq<Field>)
    requires WellNamedFields(a + [f] + b)
    ensures WellNamedFields(a + [f]) && WellNamedFields(a) && WellNamedFields(b)
  {
    var all := a + [f] + b;
    forall k | 0 <= k < |a| + 1 ensures WellNamedField((a + [f])[k]) {
      assert (a + [f])[k] == all[k];
    }
    forall k | 0 <= k < |b| ensures WellNamedField(b[k]) {
      assert b[k] == all[|a| + 1 + k];
    }
    forall k | 0 <= k < |a| ensures WellNamedField(a[k]) {
      assert a[k] == all[k];
    }
  }

  /** The walk skips an unset message field. */
  lemma UnsetFieldSkip(a: seq<Field>, f: Field, path: seq<string>, acc: FlatMap)
    requires SegmentsOk(path) && WellNamedFields(a + [f]) && WellNamedFields(a)
    requires IsUnsetMessage(f.content)
    ensures FlattenFields(a + [f], path, acc) == FlattenFields(a, path, acc)
  {
    assert (a + [f])[..|a|] == a;
    assert (a + [f])[|a|] == f;
  }

  /** Walking `x + y` is walking `x`, then `y` from where `x` left off. */
  lemma {:induction false} FieldsAppend(x: seq<Field>, y: seq<Field>, path: seq<string>, acc: FlatMap)
    requires SegmentsOk(path) && WellNamedFields(x) && WellNamedFields(y)
    ensures WellNamedFields(x + y)
    ensures FlattenFields(x + y, path, acc) ==
      match FlattenFields(x, path, acc)
      case None => None
      case Some(a) => FlattenFields(y, path, a)
    decreases |y|
  {
    assert forall k :: 0 <= k < |x + y| ==> (x + y)[k] == (if k < |x| then x[k] else y[k - |x|]);
    if y == [] {
      assert x + y == x;
    } else {
      var y0 := y[..|y| - 1];
      FieldsAppend(x, y0, path, acc);
      assert (x + y)[..|x + y| - 1] == x + y0;
      assert (x + y)[|x + y| - 1] == y[|y| - 1];
    }
  }

  /** What a walk does to the dictionary: existing keys stay first and in
      place, no key is duplicated, and every new key extends the path key of
      the stack the walk started from. */
  ghost predicate Grows(acc: FlatMap, r: FlatMap, path: seq<string>)
    requires SegmentsOk(path)
  {
    && IsPrefix(Keys(acc), Keys(r))
    && (Distinct(Keys(acc)) ==> Distinct(Keys(r)))
    && (|path| > 0 ==>
          PathOk(path) && forall k :: |acc| <= k < |r| ==> IsPrefix(PathKey(path), r[k].0))
  }

  lemma GrowsTrans(a: FlatMap, b: FlatMap, c: FlatMap, path: seq<string>)
    requires SegmentsOk(path) && Grows(a, b, path) && Grows(b, c, path)
    ensures Grows(a, c, path)
  {
    assert Keys(b)[..|a|] == Keys(a);
    assert Keys(c)[..|b|] == Keys(b);
    assert Keys(c)[..|a|] == Keys(a);
  }

  /** Growth under a deeper stack is growth under the stack below it. */
  lemma GrowsPop(acc: FlatMap, r: FlatMap, path: seq<string>, seg: string)
    requires SegmentsOk(path) && ValidName(seg)
    requires SegmentsOk(path + [seg]) && Grows(acc, r, path + [seg])
    ensures Grows(acc, r, path)
  {
    if |path| > 0 {
      SegmentsPathOk(path);
      SegmentsPathOk(path + [seg]);
      PathKeyPushPrefix(path, seg);
    }
  }

  /** The key of a stack extends the key of the stack below it. */
  lemma PathKeyPushPrefix(path: seq<string>, seg: string)
    requires |path| > 0 && SegmentsOk(path) && ValidName(seg)
    ensures SegmentsOk(path + [seg]) && PathOk(path) && PathOk(path + [seg])
    ensures IsPrefix(PathKey(path), PathKey(path + [seg]))
  {
    SegmentsPathOk(path);
    SegmentsPathOk(path + [seg]);
    assert (path + [seg])[..|path|] == path;
    CamelJoinExtends(Pieces(path), Split(seg, '_'));
  }

  lemma {:induction false} CamelJoinExtends(ps: seq<string>, qs: seq<string>)
    requires |ps| >= 1
    requires forall k :: 1 <= k < |ps + qs| ==> (ps + qs)[k] != []
    ensures forall k :: 1 <= k < |ps| ==> ps[k] != []
    ensures IsPrefix(CamelJoin(ps), CamelJoin(ps + qs))
    decreases |qs|
  {
    assert forall k :: 1 <= k < |ps| ==> ps[k] == (ps + qs)[k];
    if qs == [] {
      assert ps + qs == ps;
    } else {
      var q0 := qs[..|qs| - 1];
      assert (ps + qs)[..|ps + qs| - 1] == ps + q0;
      assert forall k :: 1 <= k < |ps + q0| ==> (ps + q0)[k] == (ps + qs)[k];
      CamelJoinExtends(ps, q0);
    }
  }

  /** A scalar field adds at most its own key, which extends the path key. */
  lemma LeafGrows(f: Field, path: seq<string>, acc: FlatMap)
    requires SegmentsOk(path) && WellNamedField(f)
    requires !f.content.Nested? && !f.content.NestedList? && !IsUnsetMessage(f.content)
    requires FlattenField(f, path, acc).Some?
    ensures Grows(acc, FlattenField(f, path, acc).value, path)
  {
    var p := path + [f.name];
    SegmentsPathOk(p);
    var key := PathKey(p);
    var v := LeafValue(f.content).value;
    var r := Put(acc, key, v);
    assert FlattenField(f, path, acc).value == r;
    PutExtends(acc, key, v);
    PutNewKeys(acc, key, v);
    if |path| > 0 {
      SegmentsPathOk(path);
      PathKeyPushPrefix(path, f.name);
    }
  }

  lemma {:induction false} FieldGrows(f: Field, path: seq<string>, acc: FlatMap)
    requires SegmentsOk(path) && WellNamedField(f)
    ensures FlattenField(f, path, acc).Some? ==> Grows(acc, FlattenField(f, path, acc).value, path)
    decreases f, 1
  {
    if |path| > 0 {
      SegmentsPathOk(path);
    }
    if !IsUnsetMessage(f.content) && FlattenField(f, path, acc).Some? {
      var p := path + [f.name];
      var r := FlattenField(f, path, acc).value;
      match f.content {
        case NestedList(ms) =>
          ItemsGrows(ms, p, acc);
          GrowsPop(acc, r, path, f.name);
        case Nested(sub) =>
          MsgGrows(sub.value, p, acc);
          GrowsPop(acc, r, path, f.name);
        case _ =>
          LeafGrows(f, path, acc);
      }
    }
  }

  lemma {:induction false} FieldsGrows(fs: seq<Field>, path: seq<string>, acc: FlatMap)
    requires SegmentsOk(path) && WellNamedFields(fs)
    ensures FlattenFields(fs, path, acc).Some? ==> Grows(acc, FlattenFields(fs, path, acc).value, path)
    decreases fs
  {
    if |path| > 0 {
      SegmentsPathOk(path);
    }
    if fs != [] && FlattenFields(fs, path, acc).Some? {
      var init := fs[..|fs| - 1];
      FieldsGrows(init, path, acc);
      var a := FlattenFields(init, path, acc).value;
      FieldGrows(fs[|fs| - 1], path, a);
      GrowsTrans(acc, a, FlattenFields(fs, path, acc).value, path);
    }
  }

  lemma {:induction false} ItemsGrows(ms: seq<Msg>, p: seq<string>, acc: FlatMap)
    requires SegmentsOk(p) && WellNamedMsgs(ms)
    ensures FlattenItems(ms, p, acc).Some? ==> Grows(acc, FlattenItems(ms, p, acc).value, p)
    decreases ms
  {
    if |p| > 0 {
      SegmentsPathOk(p);
    }
    if ms != [] && FlattenItems(ms, p, acc).Some? {
      var j := |ms| - 1;
      var init := ms[..j];
      assert WellNamedMsgs(init);
      ItemsGrows(init, p, acc);
      var a := FlattenItems(init, p, acc).value;
      IndexMarkerValid(j);
      var p' := p + [IndexMarker(j)];
      assert SegmentsOk(p');
      var r := FlattenMsg(ms[j], p', a).value;
      assert FlattenItems(ms, p, acc) == FlattenMsg(ms[j], p', a);
      MsgGrows(ms[j], p', a);
      GrowsPop(a, r, p, IndexMarker(j));
      GrowsTrans(acc, a, r, p);
    }
  }

  lemma {:induction false} MsgGrows(m: Msg, path: seq<string>, acc: FlatMap)
    requires SegmentsOk(path) && WellNamed(m)
    ensures FlattenMsg(m, path, acc).Some? ==> Grows(acc, FlattenMsg(m, path, acc).value, path)
    decreases m, 2
  {
    FieldsGrows(m.fields, path, acc);
  }

  /** The flattened record has one entry per distinct key, in first-visit
      (depth-first, declaration) order. */
  lemma FlattenDistinct(obj: Msg)
    requires WellNamed(obj)
    ensures Flatten(obj).Some? ==> Distinct(Keys(Flatten(obj).value))
  {
    MsgGrows(obj, [], []);
  }

  /** The keys an element of a repeated message field adds all start with the
      field's key followed by that element's index marker. */
  lemma ElementKeys(m: Msg, p: seq<string>, j: nat, acc: FlatMap)
    requires |p| > 0 && SegmentsOk(p) && WellNamed(m)
    ensures PathOk(p) && SegmentsOk(p + [IndexMarker(j)])
    ensures FlattenMsg(m, p + [IndexMarker(j)], acc).Some? ==>
      var r := FlattenMsg(m, p + [IndexMarker(j)], acc).value;
      forall k :: |acc| <= k < |r| ==> IsPrefix(PathKey(p) + IndexMarker(j), r[k].0)
  {
    IndexMarkerValid(j);
    SegmentsPathOk(p);
    assert SegmentsOk(p + [IndexMarker(j)]);
    MsgGrows(m, p + [IndexMarker(j)], acc);
    PathKeyIndexMarker(p, j);
  }
}
