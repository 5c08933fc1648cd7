/** The path-addressed patches of App.tsx: `findNodeById`, `setNodeValue` and
    `applyDataModelUpdate`.

    A patch `{ path: "node-id.a.b", value }` finds the first node of the held
    tree (in pre-order) whose `id` is `node-id` and writes `value` at `a.b`
    inside it, creating `{}` for every intermediate that is missing or is not
    an object.  The source writes into the held tree in place; here trees are
    values, so the found node is patched and put back where it was found
    (`ReplaceFirst`).  Array segments of a path are array indices, as in
    JavaScript (see `Put`). */
module DataModel {
  import opened JsonValues
  import opened LayoutEngine

  // ---------------------------------------------------------------------
  // findNodeById

  /** The first node, in pre-order, whose `id` is `id`.  A node's children are
      searched only when it has a `children` array. */
  function FindNodeById(node: Json, id: string): (r: Option<Json>)
    ensures r.Some? ==> Get(r.value, "id") == JStr(id)
    decreases node
  {
    if Get(node, "id") == JStr(id) then Some(node)
    else if HasChildArray(node) then FindIn(node.fields["children"].items, id)
    else None
  }

  /** The `for` loop over the children: the first child subtree with a
      match. */
  function FindIn(kids: seq<Json>, id: string): (r: Option<Json>)
    ensures r.Some? ==> Get(r.value, "id") == JStr(id)
    decreases kids
  {
    if kids == [] then None
    else
      var m := FindNodeById(kids[0], id);
      if m.Some? then m else FindIn(kids[1..], id)
  }

  /** The nodes of a tree in pre-order: a node, then the subtrees of its
      children from left to right. */
  function PreOrder(node: Json): seq<Json>
    decreases node
  {
    [node] + if HasChildArray(node) then PreOrderAll(node.fields["children"].items) else []
  }

  function PreOrderAll(kids: seq<Json>): seq<Json>
    decreases kids
  {
    if kids == [] then [] else PreOrder(kids[0]) + PreOrderAll(kids[1..])
  }

  /** The first element of `s` whose `id` is `id`. */
  function FirstWithId(s: seq<Json>, id: string): Option<Json>
  {
    if s == [] then None
    else if Get(s[0], "id") == JStr(id) then Some(s[0])
    else FirstWithId(s[1..], id)
  }

  lemma {:induction false} FirstWithIdAppend(a: seq<Json>, b: seq<Json>, id: string)
    ensures FirstWithId(a + b, id) == if FirstWithId(a, id).Some? then FirstWithId(a, id) else FirstWithId(b, id)
  {
    if a == [] {
      assert a + b == b;
    } else {
      assert (a + b)[0] == a[0];
      assert (a + b)[1..] == a[1..] + b;
      FirstWithIdAppend(a[1..], b, id);
    }
  }

  lemma {:induction false} FirstWithIdNone(s: seq<Json>, id: string)
    ensures FirstWithId(s, id).None? <==> forall j :: 0 <= j < |s| ==> Get(s[j], "id") != JStr(id)
  {
    if s != [] {
      FirstWithIdNone(s[1..], id);
      assert forall j :: 1 <= j < |s| ==> s[j] == s[1..][j - 1];
    }
  }

  /** `findNodeById` is the pre-order search: it returns the first node of the
      pre-order sequence that carries the id. */
  lemma {:induction false} FindIsFirstInPreOrder(node: Json, id: string)
    ensures FindNodeById(node, id) == FirstWithId(PreOrder(node), id)
    decreases node
  {
    var rest := if HasChildArray(node) then PreOrderAll(node.fields["children"].items) else [];
    FirstWithIdAppend([node], rest, id);
    assert [node][1..] == [];
    if HasChildArray(node) {
      FindInIsFirstInPreOrder(node.fields["children"].items, id);
    }
  }

  lemma {:induction false} FindInIsFirstInPreOrder(kids: seq<Json>, id: string)
    ensures FindIn(kids, id) == FirstWithId(PreOrderAll(kids), id)
    decreases kids
  {
    if kids != [] {
      FindIsFirstInPreOrder(kids[0], id);
      FindInIsFirstInPreOrder(kids[1..], id);
      FirstWithIdAppend(PreOrder(kids[0]), PreOrderAll(kids[1..]), id);
    }
  }

  /** `findNodeById` returns null exactly when no node of the tree carries
      the id. */
  lemma FindNoneIff(node: Json, id: string)
    ensures FindNodeById(node, id).None? <==>
            forall j :: 0 <= j < |PreOrder(node)| ==> Get(PreOrder(node)[j], "id") != JStr(id)
  {
    FindIsFirstInPreOrder(node, id);
    FirstWithIdNone(PreOrder(node), id);
  }

  /** Some element of `s` is `null` or `undefined`. */
  predicate NullIn(s: seq<Json>)
  {
    exists j :: 0 <= j < |s| && (s[j] == JNull || s[j] == JUndefined)
  }

  lemma NullInAppend(a: seq<Json>, b: seq<Json>)
    ensures NullIn(a + b) <==> NullIn(a) || NullIn(b)
  {
    if NullIn(a + b) {
      var j :| 0 <= j < |a + b| && ((a + b)[j] == JNull || (a + b)[j] == JUndefined);
      if j >= |a| {
        assert b[j - |a|] == (a + b)[j];
      }
    }
    if NullIn(a) {
      var j :| 0 <= j < |a| && (a[j] == JNull || a[j] == JUndefined);
      assert (a + b)[j] == a[j];
    }
    if NullIn(b) {
      var j :| 0 <= j < |b| && (b[j] == JNull || b[j] == JUndefined);
      assert (a + b)[|a| + j] == b[j];
    }
  }

  /** The layout throws exactly on the trees the search would meet a `null`
      or `undefined` node in: both walk the same nodes, in pre-order. */
  lemma {:induction false} UnlayableInPreOrder(node: Json)
    ensures Unlayable(node) <==> NullIn(PreOrder(node))
    decreases node
  {
    var rest := if HasChildArray(node) then PreOrderAll(node.fields["children"].items) else [];
    NullInAppend([node], rest);
    assert [node][0] == node;
    assert NullIn([node]) <==> node == JNull || node == JUndefined;
    if HasChildArray(node) {
      UnlayableInPreOrderAll(node.fields["children"].items);
    } else {
      assert !NullIn(rest);
    }
  }

  lemma {:induction false} UnlayableInPreOrderAll(kids: seq<Json>)
    ensures (exists i :: 0 <= i < |kids| && Unlayable(kids[i])) <==> NullIn(PreOrderAll(kids))
    decreases kids
  {
    if kids == [] {
      assert !NullIn(PreOrderAll(kids));
    } else {
      UnlayableInPreOrder(kids[0]);
      UnlayableInPreOrderAll(kids[1..]);
      NullInAppend(PreOrder(kids[0]), PreOrderAll(kids[1..]));
      if exists i :: 1 <= i < |kids| && Unlayable(kids[i]) {
        var i :| 1 <= i < |kids| && Unlayable(kids[i]);
        assert kids[1..][i - 1] == kids[i];
      }
      if exists i :: 0 <= i < |kids[1..]| && Unlayable(kids[1..][i]) {
        var i :| 0 <= i < |kids[1..]| && Unlayable(kids[1..][i]);
        assert kids[i + 1] == kids[1..][i];
      }
    }
  }

  // ---------------------------------------------------------------------
  // setNodeValue

  /** The next `target` of the descent: the value at `key` when it is an
      object (or array), otherwise the `{}` that replaces it. */
  function Step(target: Json, key: string): (r: Json)
    ensures IsObjectLike(r)
    ensures IsObjectLike(Get(target, key)) ==> r == Get(target, key)
  {
    var cur := Get(target, key);
    if IsObjectLike(cur) then cur else JObj(map[])
  }

  /** The key of the final write.  With no segments at all, the source reads
      `pathParts[-1]`, which is `undefined` and names the key "undefined". */
  function LastKey(parts: seq<string>): string
  {
    if parts == [] then "undefined" else parts[|parts| - 1]
  }

  /** `setNodeValue` on values: the target with `value` written at the path,
      every intermediate on the way made an object. */
  function SetPath(target: Json, parts: seq<string>, value: Json): (r: Json)
    ensures IsObjectLike(target) ==> IsObjectLike(r) && r.JObj? == target.JObj?
    decreases |parts|
  {
    if |parts| <= 1 then Put(target, LastKey(parts), value)
    else Put(target, parts[0], SetPath(Step(target, parts[0]), parts[1..], value))
  }

  /** Reading a path: `v[p0][p1]...`. */
  function GetPath(v: Json, parts: seq<string>): Json
    decreases |parts|
  {
    if parts == [] then v else GetPath(Get(v, parts[0]), parts[1..])
  }

  /** The target after the first `j` steps of the descent. */
  function Descend(target: Json, parts: seq<string>, j: nat): Json
    requires j <= |parts|
  {
    if j == 0 then target else Step(Descend(target, parts, j - 1), parts[j - 1])
  }

  /** The targets met on the way down to depth `i`, in order. */
  function Trail(target: Json, parts: seq<string>, i: nat): (r: seq<Json>)
    requires i <= |parts|
    ensures |r| == i
  {
    if i == 0 then [] else Trail(target, parts, i - 1) + [Descend(target, parts, i - 1)]
  }

  lemma {:induction false} TrailAt(target: Json, parts: seq<string>, i: nat, j: nat)
    requires j < i <= |parts|
    ensures Trail(target, parts, i)[j] == Descend(target, parts, j)
  {
    if j < i - 1 {
      TrailAt(target, parts, i - 1, j);
    }
  }

  lemma SetPathUnfold(target: Json, parts: seq<string>, value: Json, k: nat)
    requires k + 1 < |parts|
    ensures SetPath(Descend(target, parts, k), parts[k..], value)
            == Put(Descend(target, parts, k), parts[k],
                   SetPath(Descend(target, parts, k + 1), parts[k + 1..], value))
  {
    assert parts[k..][1..] == parts[k + 1..];
  }

  /** `setNodeValue`: descend along all segments but the last, replacing
      missing or non-object intermediates by `{}`, then write the value.  The
      source writes through shared references; on values the visited targets
      are kept and the written values are put back on the way up. */
  method SetNodeValue(node: Json, pathParts: seq<string>, value: Json) returns (r: Json)
    ensures r == SetPath(node, pathParts, value)
  {
    var visited, target := Descent(node, pathParts);
    r := Put(target, LastKey(pathParts), value);
    SetPathLast(target, pathParts, |visited|, value);
    r := WriteBack(node, pathParts, value, visited, r);
  }

  /** The way down: every segment but the last is read, a missing or
      non-object value is replaced by a fresh `{}`. */
  method Descent(node: Json, pathParts: seq<string>) returns (visited: seq<Json>, target: Json)
    ensures |visited| == 0 || |visited| < |pathParts|
    ensures |visited| + 1 >= |pathParts|
    ensures visited == Trail(node, pathParts, |visited|)
    ensures target == Descend(node, pathParts, |visited|)
  {
    target := node;
    visited := [];
    var i := 0;
    while i + 1 < |pathParts|
      invariant i == 0 || i < |pathParts|
      invariant visited == Trail(node, pathParts, i)
      invariant target == Descend(node, pathParts, i)
    {
      var key := pathParts[i];
      var next := Get(target, key);
      if !IsObjectLike(next) {
        next := JObj(map[]);
      }
      assert next == Step(target, key);
      assert Trail(node, pathParts, i + 1) == visited + [target];
      visited := visited + [target];
      target := next;
      i := i + 1;
    }
  }

  /** At the last segment the remaining path writes one key. */
  lemma SetPathLast(target: Json, parts: seq<string>, i: nat, value: Json)
    requires i == 0 || i < |parts|
    requires i + 1 >= |parts|
    ensures Put(target, LastKey(parts), value) == SetPath(target, parts[i..], value)
  {
    assert LastKey(parts[i..]) == LastKey(parts);
  }

  /** The way back up: each visited target gets the written value of the
      level below at its key. */
  method WriteBack(node: Json, pathParts: seq<string>, value: Json, visited: seq<Json>, written: Json)
    returns (r: Json)
    requires |visited| == 0 || |visited| < |pathParts|
    requires visited == Trail(node, pathParts, |visited|)
    requires |visited| + 1 >= |pathParts|
    requires written == SetPath(Descend(node, pathParts, |visited|), pathParts[|visited|..], value)
    ensures r == SetPath(node, pathParts, value)
  {
    var i := |visited|;
    r := written;
    while i > 0
      invariant 0 <= i <= |visited|
      invariant r == SetPath(Descend(node, pathParts, i), pathParts[i..], value)
    {
      i := i - 1;
      SetPathUnfold(node, pathParts, value, i);
      TrailAt(node, pathParts, |visited|, i);
      r := Put(visited[i], pathParts[i], r);
    }
  }

  /** Every write of the path lands on something that holds it: no segment
      names a non-index key of an existing array. */
  predicate Addressable(target: Json, parts: seq<string>)
    decreases |parts|
  {
    |parts| > 0 && Stores(target, parts[0])
    && (|parts| > 1 ==> Addressable(Step(target, parts[0]), parts[1..]))
  }

  /** Reading the path back after writing it yields the value. */
  lemma {:induction false} SetThenGet(target: Json, parts: seq<string>, value: Json)
    requires Addressable(target, parts)
    ensures GetPath(SetPath(target, parts, value), parts) == value
    decreases |parts|
  {
    if |parts| == 1 {
      PutThenGet(target, parts[0], value);
    } else {
      var inner := SetPath(Step(target, parts[0]), parts[1..], value);
      PutThenGet(target, parts[0], inner);
      SetThenGet(Step(target, parts[0]), parts[1..], value);
    }
  }

  /** Writing one key leaves every other key as it was. */
  lemma PutOther(target: Json, key: string, x: Json, other: string)
    requires other != key
    ensures Get(Put(target, key, x), other) == Get(target, other)
  {
    match target
    case JObj(m) =>
    case JArr(items) =>
      var i := ParseIndex(key);
      var j := ParseIndex(other);
      if i.Some? && j.Some? {
        assert i.value != j.value;
      }
    case _ =>
  }

  /** `p` and `q` part ways at segment `i`. */
  predicate DivergeAt(p: seq<string>, q: seq<string>, i: nat)
  {
    i < |p| && i < |q| && p[..i] == q[..i] && p[i] != q[i]
  }

  lemma {:induction false} GetPathUndefined(parts: seq<string>)
    ensures GetPath(JUndefined, parts) == JUndefined
    decreases |parts|
  {
    if parts != [] {
      GetPathUndefined(parts[1..]);
    }
  }

  /** Nothing off the path changes: a path that parts ways with the written
      one reads what it read before. */
  lemma {:induction false} SetOffPath(target: Json, parts: seq<string>, value: Json, q: seq<string>, i: nat)
    requires DivergeAt(parts, q, i)
    ensures GetPath(SetPath(target, parts, value), q) == GetPath(target, q)
    decreases |parts|
  {
    var written := SetPath(target, parts, value);
    if i == 0 {
      var x := if |parts| <= 1 then value else SetPath(Step(target, parts[0]), parts[1..], value);
      assert written == Put(target, parts[0], x);
      PutOther(target, parts[0], x, q[0]);
    } else {
      assert q[0] == parts[0] by { assert parts[..i][0] == q[..i][0]; }
      var s := Step(target, parts[0]);
      var inner := SetPath(s, parts[1..], value);
      assert written == Put(target, parts[0], inner);
      assert DivergeAt(parts[1..], q[1..], i - 1) by {
        assert parts[1..][..i - 1] == parts[..i][1..];
        assert q[1..][..i - 1] == q[..i][1..];
      }
      SetOffPath(s, parts[1..], value, q[1..], i - 1);
      if Stores(target, parts[0]) {
        PutThenGet(target, parts[0], inner);
        if !IsObjectLike(Get(target, parts[0])) {
          assert |q[1..]| > 0;
          assert GetPath(s, q[1..]) == GetPath(JUndefined, q[2..]);
          assert GetPath(Get(target, parts[0]), q[1..]) == GetPath(JUndefined, q[2..]);
        }
      }
    }
  }

  lemma PutPut(target: Json, key: string, x: Json)
    ensures Put(Put(target, key, x), key, x) == Put(target, key, x)
  {
    match target
    case JObj(m) =>
    case JArr(items) =>
      var i := ParseIndex(key);
      if i.Some? {
        var once := SetIndex(items, i.value, x);
        assert SetIndex(once, i.value, x) == once;
      }
    case _ =>
  }

  /** Writing the same value at the same path twice is writing it once. */
  lemma {:induction false} SetPathIdempotent(target: Json, parts: seq<string>, value: Json)
    ensures SetPath(SetPath(target, parts, value), parts, value) == SetPath(target, parts, value)
    decreases |parts|
  {
    if |parts| <= 1 {
      PutPut(target, LastKey(parts), value);
    } else {
      var s := Step(target, parts[0]);
      var inner := SetPath(s, parts[1..], value);
      var once := Put(target, parts[0], inner);
      SetPathIdempotent(s, parts[1..], value);
      if Stores(target, parts[0]) {
        PutThenGet(target, parts[0], inner);
        assert Step(once, parts[0]) == inner;
        PutPut(target, parts[0], inner);
      } else {
        assert once == target;
      }
    }
  }

  // ---------------------------------------------------------------------
  // applyDataModelUpdate

  /** `s.split(sep)`: the pieces between the separators, at least one. */
  function Split(s: string, sep: char): (r: seq<string>)
    ensures |r| >= 1
  {
    if s == [] then [""]
    else
      var rest := Split(s[1..], sep);
      if s[0] == sep then [""] + rest else [[s[0]] + rest[0]] + rest[1..]
  }

  /** The inverse of `Split`: the pieces joined by the separator. */
  function Join(parts: seq<string>, sep: char): string
    requires |parts| >= 1
  {
    if |parts| == 1 then parts[0] else parts[0] + [sep] + Join(parts[1..], sep)
  }

  lemma {:induction false} SplitJoin(s: string, sep: char)
    ensures Join(Split(s, sep), sep) == s
    ensures forall k :: 0 <= k < |Split(s, sep)| ==> sep !in Split(s, sep)[k]
  {
    if s != [] {
      var rest := Split(s[1..], sep);
      SplitJoin(s[1..], sep);
      if s[0] == sep {
        assert Split(s, sep)[1..] == rest;
      } else {
        var r := Split(s, sep);
        assert r[0] == [s[0]] + rest[0];
        if |rest| > 1 {
          assert r[1..] == rest[1..];
          assert Join(rest, sep) == rest[0] + [sep] + Join(rest[1..], sep);
        }
        assert forall k :: 1 <= k < |r| ==> r[k] == rest[k];
      }
    }
  }

  /** There is a second piece exactly when the separator occurs, and the first
      piece is empty exactly when the string is empty or starts with it. */
  lemma {:induction false} SplitShape(s: string, sep: char)
    ensures |Split(s, sep)| == 1 <==> sep !in s
    ensures Split(s, sep)[0] == [] <==> s == [] || s[0] == sep
  {
    if s != [] {
      SplitShape(s[1..], sep);
      assert sep in s <==> s[0] == sep || sep in s[1..];
    }
  }

  /** The node id and the field path a patch names, or `None` when the patch
      is refused before any search: a `path` that is missing, not a string or
      empty, an empty first segment, or no segment after it. */
  function ParsePath(update: Json): Option<(string, seq<string>)>
  {
    var path := Get(update, "path");
    if !Truthy(path) || !path.JStr? then None
    else
      var segs := Split(path.s, '.');
      if segs[0] == [] || |segs| == 1 then None else Some((segs[0], segs[1..]))
  }

  /** A patch is parsed exactly when its path is a string that does not
      start with a dot and contains one. */
  lemma ParsePathSome(update: Json)
    ensures ParsePath(update).Some? <==>
            var path := Get(update, "path");
            path.JStr? && path.s != [] && path.s[0] != '.' && '.' in path.s
    ensures ParsePath(update).Some? ==>
            var path := Get(update, "path").s;
            var (nodeId, parts) := ParsePath(update).value;
            '.' !in nodeId && |parts| >= 1 && Join([nodeId] + parts, '.') == path
  {
    var path := Get(update, "path");
    if path.JStr? {
      SplitShape(path.s, '.');
      SplitJoin(path.s, '.');
      var segs := Split(path.s, '.');
      if |segs| > 1 {
        assert [segs[0]] + segs[1..] == segs;
      }
    }
  }

  /** The tree with the first node carrying `id` (in pre-order) replaced by
      `repl`: where an in-place write to the found node shows up. */
  function ReplaceFirst(node: Json, id: string, repl: Json): Json
    decreases node
  {
    if Get(node, "id") == JStr(id) then repl
    else if HasChildArray(node) then
      JObj(node.fields["children" := JArr(ReplaceIn(node.fields["children"].items, id, repl))])
    else node
  }

  function ReplaceIn(kids: seq<Json>, id: string, repl: Json): (r: seq<Json>)
    ensures |r| == |kids|
    decreases kids
  {
    if kids == [] then []
    else if FindNodeById(kids[0], id).Some? then [ReplaceFirst(kids[0], id, repl)] + kids[1..]
    else [kids[0]] + ReplaceIn(kids[1..], id, repl)
  }

  /** Putting the found node back unchanged leaves the tree as it was. */
  lemma {:induction false} ReplaceFound(node: Json, id: string)
    requires FindNodeById(node, id).Some?
    ensures ReplaceFirst(node, id, FindNodeById(node, id).value) == node
    decreases node
  {
    if Get(node, "id") != JStr(id) {
      var kids := node.fields["children"].items;
      ReplaceInFound(kids, id);
      assert node.fields["children" := JArr(kids)] == node.fields;
    }
  }

  lemma {:induction false} ReplaceInFound(kids: seq<Json>, id: string)
    requires FindIn(kids, id).Some?
    ensures ReplaceIn(kids, id, FindIn(kids, id).value) == kids
    decreases kids
  {
    if FindNodeById(kids[0], id).Some? {
      ReplaceFound(kids[0], id);
      assert [kids[0]] + kids[1..] == kids;
    } else {
      ReplaceInFound(kids[1..], id);
      assert [kids[0]] + kids[1..] == kids;
    }
  }

  /** After the found node is replaced by one that keeps the id, the search
      finds the replacement: nothing before it in pre-order gained the id. */
  lemma {:induction false} FindAfterReplace(node: Json, id: string, repl: Json)
    requires FindNodeById(node, id).Some? && Get(repl, "id") == JStr(id)
    ensures FindNodeById(ReplaceFirst(node, id, repl), id) == Some(repl)
    decreases node
  {
    if Get(node, "id") != JStr(id) {
      var kids := node.fields["children"].items;
      var m := node.fields["children" := JArr(ReplaceIn(kids, id, repl))];
      assert Get(JObj(m), "id") == Get(node, "id");
      FindInAfterReplace(kids, id, repl);
    }
  }

  lemma {:induction false} FindInAfterReplace(kids: seq<Json>, id: string, repl: Json)
    requires FindIn(kids, id).Some? && Get(repl, "id") == JStr(id)
    ensures FindIn(ReplaceIn(kids, id, repl), id) == Some(repl)
    decreases kids
  {
    var r := ReplaceIn(kids, id, repl);
    if FindNodeById(kids[0], id).Some? {
      FindAfterReplace(kids[0], id, repl);
    } else {
      assert r[1..] == ReplaceIn(kids[1..], id, repl);
      FindInAfterReplace(kids[1..], id, repl);
    }
  }

  /** `applyDataModelUpdate` as a function: `None` when it returns false (the
      tree is then unchanged), otherwise the patched tree. */
  function Patch(root: Json, update: Json): Option<Json>
  {
    match ParsePath(update)
    case None => None
    case Some((nodeId, parts)) =>
      match FindNodeById(root, nodeId)
      case None => None
      case Some(node) => Some(ReplaceFirst(root, nodeId, SetPath(node, parts, Get(update, "value"))))
  }

  /** `applyDataModelUpdate`: refuse a malformed path, find the node, write
      the value; report whether it wrote. */
  method ApplyDataModelUpdate(root: Json, update: Json) returns (ok: bool, patched: Json)
    ensures ok == Patch(root, update).Some?
    ensures patched == if ok then Patch(root, update).value else root
  {
    patched := root;
    var path := Get(update, "path");
    if !Truthy(path) || !path.JStr? {
      return false, patched;
    }
    var segs := Split(path.s, '.');
    var nodeId, pathParts := segs[0], segs[1..];
    if nodeId == [] || |pathParts| == 0 {
      return false, patched;
    }
    var node := FindNodeById(root, nodeId);
    if node.None? {
      return false, patched;
    }
    var written := SetNodeValue(node.value, pathParts, Get(update, "value"));
    patched := ReplaceFirst(root, nodeId, written);
    return true, patched;
  }

  /** A patch fails exactly when its path is refused or no node carries the
      id; on success the found node, read along the path, gives the value
      (when the path does not rename the node and every write lands). */
  lemma PatchReadsBack(root: Json, update: Json)
    requires ParsePath(update).Some?
    ensures var (nodeId, parts) := ParsePath(update).value;
            Patch(root, update).None? <==> FindNodeById(root, nodeId).None?
    ensures var (nodeId, parts) := ParsePath(update).value;
            Patch(root, update).Some? && parts[0] != "id" && Addressable(FindNodeById(root, nodeId).value, parts) ==>
              var n := FindNodeById(Patch(root, update).value, nodeId);
              n.Some? && GetPath(n.value, parts) == Get(update, "value")
  {
    var (nodeId, parts) := ParsePath(update).value;
    var found := FindNodeById(root, nodeId);
    if found.Some? && parts[0] != "id" && Addressable(found.value, parts) {
      var v := Get(update, "value");
      var written := SetPath(found.value, parts, v);
      SetOffPath(found.value, parts, v, ["id"], 0);
      FindAfterReplace(root, nodeId, written);
      SetThenGet(found.value, parts, v);
    }
  }

  /** Applying the same patch twice leaves the tree as applying it once,
      unless the path rewrites the node's own id. */
  lemma PatchIdempotent(root: Json, update: Json)
    requires Patch(root, update).Some?
    requires ParsePath(update).value.1[0] != "id"
    ensures Patch(Patch(root, update).value, update) == Patch(root, update)
  {
    var (nodeId, parts) := ParsePath(update).value;
    var v := Get(update, "value");
    var node := FindNodeById(root, nodeId).value;
    var written := SetPath(node, parts, v);
    var once := ReplaceFirst(root, nodeId, written);
    SetOffPath(node, parts, v, ["id"], 0);
    FindAfterReplace(root, nodeId, written);
    SetPathIdempotent(node, parts, v);
    ReplaceFound(once, nodeId);
  }
}
