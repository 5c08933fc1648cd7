/** The two pure helpers of services/geminiStream.ts that turn a model reply
    into a UI tree: `extractJson` cuts the JSON object out of the reply text,
    and `normalizeRoot` fills in the fields a root must have.

    `extractJson` removes Markdown code fences (every "```json", in any letter
    case, and every "```", matched left to right as a global regular
    expression replacement does), trims JavaScript white space from both
    ends, and keeps the text from the first `{` to the last `}`.  It fails when
    there is no such pair.  Parsing the cut text is not part of this model. */
module GeminiReply {
  import opened JsonValues

  // ---------------------------------------------------------------------
  // Fence removal

  const Fence: string := "```"

  predicate StartsWithFence(t: string)
  {
    |t| >= 3 && t[0] == '`' && t[1] == '`' && t[2] == '`'
  }

  /** The text starts with "```json", the letters in any case (the `i` flag
      folds ASCII letters only). */
  predicate StartsWithJsonFence(t: string)
  {
    |t| >= 7 && StartsWithFence(t)
    && (t[3] == 'j' || t[3] == 'J') && (t[4] == 's' || t[4] == 'S')
    && (t[5] == 'o' || t[5] == 'O') && (t[6] == 'n' || t[6] == 'N')
  }

  /** `text.replace(/```json|```/gi, '')`: at each position the longer
      alternative is tried first; a match is dropped and the scan resumes
      after it, any other character is kept. */
  function StripFences(t: string): (r: string)
    ensures |r| <= |t|
    decreases |t|
  {
    if StartsWithJsonFence(t) then StripFences(t[7..])
    else if StartsWithFence(t) then StripFences(t[3..])
    else if t == [] then []
    else [t[0]] + StripFences(t[1..])
  }

  /** Some position of the text starts a fence. */
  predicate HasFence(s: string)
    decreases |s|
  {
    StartsWithFence(s) || (s != [] && HasFence(s[1..]))
  }

  /** A kept backtick was a backtick of the text. */
  lemma FirstTick(t: string)
    requires StripFences(t) != [] && StripFences(t)[0] == '`'
    ensures t != [] && t[0] == '`'
  {
  }

  lemma {:induction false} FirstTwoTicks(t: string)
    requires |StripFences(t)| >= 2 && StripFences(t)[0] == '`' && StripFences(t)[1] == '`'
    ensures |t| >= 2 && t[0] == '`' && t[1] == '`'
    decreases |t|
  {
    if !StartsWithJsonFence(t) && !StartsWithFence(t) {
      assert StripFences(t) == [t[0]] + StripFences(t[1..]);
      FirstTick(t[1..]);
    }
  }

  /** No fence survives the removal, not even one that two removals could
      have brought together. */
  lemma {:induction false} StripLeavesNoFence(t: string)
    ensures !HasFence(StripFences(t))
    decreases |t|
  {
    if StartsWithJsonFence(t) {
      StripLeavesNoFence(t[7..]);
    } else if StartsWithFence(t) {
      StripLeavesNoFence(t[3..]);
    } else if t != [] {
      var rest := StripFences(t[1..]);
      StripLeavesNoFence(t[1..]);
      assert StripFences(t) == [t[0]] + rest;
      assert ([t[0]] + rest)[1..] == rest;
      if |rest| >= 2 && rest[0] == '`' && rest[1] == '`' {
        FirstTwoTicks(t[1..]);
        assert t[0] != '`';
      }
    }
  }

  /** A character other than a backtick is kept. */
  lemma KeptChar(t: string)
    requires t != [] && t[0] != '`'
    ensures StripFences(t) == [t[0]] + StripFences(t[1..])
  {
  }

  /** Text without a backtick passes unchanged. */
  lemma {:induction false} StripPlain(a: string, b: string)
    requires '`' !in a
    ensures StripFences(a + b) == a + StripFences(b)
    decreases |a|
  {
    if a == [] {
      assert a + b == b;
    } else {
      var t := a + b;
      assert a == [a[0]] + a[1..];
      assert t[0] == a[0] && t[1..] == a[1..] + b;
      KeptChar(t);
      StripPlain(a[1..], b);
    }
  }

  // ---------------------------------------------------------------------
  // Trimming

  /** JavaScript `WhiteSpace` and `LineTerminator`, the characters
      `String.prototype.trim` removes. */
  predicate IsSpace(c: char)
  {
    c == '\t' || c == '\n' || c == '\U{B}' || c == '\U{C}' || c == '\r' || c == ' '
    || c == '\U{A0}' || c == '\U{1680}' || ('\U{2000}' <= c <= '\U{200A}')
    || c == '\U{2028}' || c == '\U{2029}' || c == '\U{202F}' || c == '\U{205F}'
    || c == '\U{3000}' || c == '\U{FEFF}'
  }

  /** The length of the leading run of white space. */
  function LeadingSpace(t: string): (k: nat)
    ensures k <= |t|
    ensures forall i :: 0 <= i < k ==> IsSpace(t[i])
    ensures k < |t| ==> !IsSpace(t[k])
  {
    if t == [] || !IsSpace(t[0]) then 0 else 1 + LeadingSpace(t[1..])
  }

  /** Where the trailing run of white space starts. */
  function TrailingStart(t: string): (k: nat)
    ensures k <= |t|
    ensures forall i :: k <= i < |t| ==> IsSpace(t[i])
    ensures k > 0 ==> !IsSpace(t[k - 1])
  {
    if t == [] || !IsSpace(t[|t| - 1]) then |t| else TrailingStart(t[..|t| - 1])
  }

  /** `s.trim()`: the text between the leading and the trailing white space. */
  function Trim(t: string): (r: string)
    ensures LeadingSpace(t) + |r| <= |t|
    ensures r == t[LeadingSpace(t)..LeadingSpace(t) + |r|]
    ensures forall i :: LeadingSpace(t) + |r| <= i < |t| ==> IsSpace(t[i])
    ensures r != [] ==> !IsSpace(r[0]) && !IsSpace(r[|r| - 1])
  {
    var lead := LeadingSpace(t);
    var rest := t[lead..];
    var k := TrailingStart(rest);
    assert rest[..k] == t[lead..lead + k];
    assert forall i :: lead + k <= i < |t| ==> t[i] == rest[i - lead];
    rest[..k]
  }

  /** Trimming removes exactly white space wrapped around the text. */
  lemma TrimWrapped(a: string, r: string, b: string)
    requires forall i :: 0 <= i < |a| ==> IsSpace(a[i])
    requires forall i :: 0 <= i < |b| ==> IsSpace(b[i])
    requires r != [] && !IsSpace(r[0]) && !IsSpace(r[|r| - 1])
    ensures Trim(a + r + b) == r
  {
    var t := a + r + b;
    assert LeadingSpace(t) == |a| by {
      LeadingRun(t, a);
    }
    var rest := t[|a|..];
    assert rest == r + b;
    assert TrailingStart(rest) == |r| by {
      TrailingRun(r, b);
    }
    assert rest[..|r|] == r;
  }

  lemma {:induction false} LeadingRun(t: string, a: string)
    requires |a| < |t| && t[..|a|] == a
    requires forall i :: 0 <= i < |a| ==> IsSpace(a[i])
    requires !IsSpace(t[|a|])
    ensures LeadingSpace(t) == |a|
    decreases |a|
  {
    if a != [] {
      assert IsSpace(t[0]) by {
        assert t[0] == t[..|a|][0];
      }
      assert t[1..][..|a| - 1] == a[1..];
      LeadingRun(t[1..], a[1..]);
    }
  }

  lemma {:induction false} TrailingRun(r: string, b: string)
    requires r != [] && !IsSpace(r[|r| - 1])
    requires forall i :: 0 <= i < |b| ==> IsSpace(b[i])
    ensures TrailingStart(r + b) == |r|
    decreases |b|
  {
    if b == [] {
      assert r + b == r;
    } else {
      assert (r + b)[..|r + b| - 1] == r + b[..|b| - 1];
      TrailingRun(r, b[..|b| - 1]);
    }
  }

  // ---------------------------------------------------------------------
  // Searching

  /** `s.indexOf(c)`: the first position of `c`, or -1. */
  function IndexOf(s: string, c: char): (r: int)
    ensures -1 <= r < |s|
    ensures r == -1 <==> c !in s
    ensures r >= 0 ==> s[r] == c && c !in s[..r]
  {
    if s == [] then -1
    else if s[0] == c then 0
    else
      var k := IndexOf(s[1..], c);
      assert s == [s[0]] + s[1..];
      if k == -1 then -1 else
        assert s[..k + 1] == [s[0]] + s[1..][..k];
        k + 1
  }

  /** `s.lastIndexOf(c)`: the last position of `c`, or -1. */
  function LastIndexOf(s: string, c: char): (r: int)
    ensures -1 <= r < |s|
    ensures r == -1 <==> c !in s
    ensures r >= 0 ==> s[r] == c && c !in s[r + 1..]
  {
    if s == [] then -1
    else if s[|s| - 1] == c then |s| - 1
    else
      var k := LastIndexOf(s[..|s| - 1], c);
      assert s == s[..|s| - 1] + [s[|s| - 1]];
      if k == -1 then -1 else
        assert s[k + 1..] == s[..|s| - 1][k + 1..] + [s[|s| - 1]];
        k
  }

  // ---------------------------------------------------------------------
  // extractJson

  const NoObject: string := "Gemini response did not include a JSON object."

  /** The reply with fences removed and trimmed. */
  function Cleaned(text: string): string
  {
    Trim(StripFences(text))
  }

  /** The slice from the first `{` to the last `}` of the cleaned text. */
  function Cut(w: string): Result<string>
  {
    var start := IndexOf(w, '{');
    var end := LastIndexOf(w, '}');
    if start == -1 || end == -1 || end <= start then Err(NoObject)
    else Ok(w[start..end + 1])
  }

  /** `extractJson`: the failure is the error it throws. */
  function ExtractJson(text: string): Result<string>
  {
    Cut(Cleaned(text))
  }

  /** Cutting fails exactly when the text has no `{` before a `}`. */
  lemma CutOkIff(w: string)
    ensures Cut(w).Ok? <==> exists i, j :: 0 <= i < j < |w| && w[i] == '{' && w[j] == '}'
  {
    var start := IndexOf(w, '{');
    var end := LastIndexOf(w, '}');
    if exists i, j :: 0 <= i < j < |w| && w[i] == '{' && w[j] == '}' {
      var i, j :| 0 <= i < j < |w| && w[i] == '{' && w[j] == '}';
      assert '{' in w && '}' in w;
      assert start <= i;
      assert j <= end;
    }
    if Cut(w).Ok? {
      assert w[start] == '{' && w[end] == '}';
    }
  }

  /** On success the cut is an object-shaped slice of the text: it starts
      with `{`, ends with `}`, no `{` comes before it and no `}` after it. */
  lemma CutShape(w: string)
    requires Cut(w).Ok?
    ensures var r := Cut(w).value;
            var start := IndexOf(w, '{');
            |r| >= 2 && r[0] == '{' && r[|r| - 1] == '}'
            && 0 <= start && start + |r| <= |w| && r == w[start..start + |r|]
            && '{' !in w[..start] && '}' !in w[start + |r|..]
  {
    var start := IndexOf(w, '{');
    var end := LastIndexOf(w, '}');
    assert Cut(w) == Ok(w[start..end + 1]);
    var r := w[start..end + 1];
    assert r[0] == w[start] == '{';
    assert r[|r| - 1] == w[end] == '}';
    assert start + |r| == end + 1;
  }

  /** The cut is determined by where the braces are: a text made of a
      brace-free head, an object-shaped middle and a brace-free tail cuts
      to exactly that middle. */
  lemma CutUnique(w: string, pre: string, r: string, post: string)
    requires w == pre + r + post
    requires |r| >= 2 && r[0] == '{' && r[|r| - 1] == '}'
    requires '{' !in pre && '}' !in post
    ensures Cut(w) == Ok(r)
  {
    var start := IndexOf(w, '{');
    var end := LastIndexOf(w, '}');
    assert w[|pre|] == '{';
    assert w[|pre| + |r| - 1] == '}';
    assert w[..|pre|] == pre;
    assert w[|pre| + |r|..] == post;
    assert start == |pre|;
    assert end == |pre| + |r| - 1;
    assert w[start..end + 1] == r;
  }

  /** Text with no backtick and no surrounding white space is clean. */
  lemma BareIsClean(r: string)
    requires r != [] && !IsSpace(r[0]) && !IsSpace(r[|r| - 1])
    requires '`' !in r
    ensures Cleaned(r) == r
  {
    StripPlain(r, []);
    assert r + [] == r;
    assert StripFences([]) == [];
    TrimWrapped([], r, []);
    assert [] + r + [] == r;
  }

  /** A "```json" fence block around the text is removed with its line
      breaks. */
  lemma FencedIsClean(r: string)
    requires r != [] && !IsSpace(r[0]) && !IsSpace(r[|r| - 1])
    requires '`' !in r
    ensures Cleaned("```json\n" + r + "\n```") == r
  {
    var fenced := "```json\n" + r + "\n```";
    var inner := "\n" + r + "\n";
    assert fenced == "```json" + (inner + Fence);
    assert StartsWithJsonFence(fenced);
    assert fenced[7..] == inner + Fence;
    assert '`' !in inner;
    StripPlain(inner, Fence);
    assert StripFences(Fence) == [] by {
      assert Fence[3..] == [];
    }
    assert StripFences(fenced) == inner + [];
    assert inner + [] == "\n" + r + "\n";
    TrimWrapped("\n", r, "\n");
  }

  /** A reply that is a bare JSON object text (no backtick in it) extracts to
      itself, and so does the same text wrapped in a "```json" fence block
      on lines of its own. */
  lemma ExtractBare(r: string)
    requires |r| >= 2 && r[0] == '{' && r[|r| - 1] == '}'
    requires '`' !in r
    ensures ExtractJson(r) == Ok(r)
    ensures ExtractJson("```json\n" + r + "\n```") == Ok(r)
  {
    BareIsClean(r);
    FencedIsClean(r);
    CutUnique(r, [], r, []);
    assert [] + r + [] == r;
  }

  // ---------------------------------------------------------------------
  // normalizeRoot

  const CannotWrite: string := "Cannot create property on a primitive value"

  /** `v || fallback` */
  function Or(v: Json, fallback: Json): Json
  {
    if Truthy(v) then v else fallback
  }

  /** The numeric style field, or the default when it is not a number. */
  function NumberOr(style: map<string, Json>, key: string, default: real): Json
  {
    if key in style && style[key].JNum? then style[key] else JNum(default)
  }

  function FieldOf(m: map<string, Json>, key: string): Json
  {
    if key in m then m[key] else JUndefined
  }

  /** `if (!o[key]) o[key] = v` */
  function FillFalsy(m: map<string, Json>, key: string, v: Json): map<string, Json>
  {
    if key in m && Truthy(m[key]) then m else m[key := v]
  }

  /** `if (typeof o[key] !== 'number') o[key] = default` */
  function FillNumber(m: map<string, Json>, key: string, default: real): map<string, Json>
  {
    if key in m && m[key].JNum? then m else m[key := JNum(default)]
  }

  /** The four style numbers a root must have, each filled in when it is not
      a number. */
  function FillStyle(s: map<string, Json>): map<string, Json>
  {
    FillNumber(FillNumber(FillNumber(FillNumber(s, "width", 1000.0), "height", 800.0),
                          "padding", 40.0), "gap", 20.0)
  }

  /** The root's own fields with `id` and `type` filled in. */
  function Named(root: Json): map<string, Json>
    requires root.JObj?
  {
    FillFalsy(FillFalsy(root.fields, "id", JStr("root")), "type", JStr("Surface"))
  }

  /** The props object normalisation starts from (before its style is
      filled in). */
  function PropsOf(root: Json): Json
    requires root.JObj?
  {
    Or(FieldOf(Named(root), "props"), JObj(map[]))
  }

  /** What `normalizeRoot` makes of a root object, as one value.  It fails
      when `props`, or `props.style`, is a truthy value that is not an object:
      writing a property onto a primitive throws in module code. */
  function Normalized(root: Json): (r: Result<Json>)
    requires root.JObj?
  {
    var props := PropsOf(root);
    if !props.JObj? then Err(CannotWrite)
    else
      var style := Or(FieldOf(props.fields, "style"), JObj(map[]));
      if !style.JObj? then Err(CannotWrite)
      else
        Ok(JObj(Named(root)["props" := JObj(props.fields["style" := JObj(FillStyle(style.fields))])]))
  }

  /** `normalizeRoot`, one guarded write after the other.  The root the reply
      parses to is an object (the extracted text starts with `{`), so every
      write is a write to an object's fields. */
  method NormalizeRoot(root: Json) returns (r: Result<Json>)
    requires root.JObj?
    ensures r == Normalized(root)
  {
    var node := root.fields;
    if !Truthy(FieldOf(node, "id")) {
      node := node["id" := JStr("root")];
    }
    if !Truthy(FieldOf(node, "type")) {
      node := node["type" := JStr("Surface")];
    }
    // A fresh `{}` for missing props or style is written into its parent
    // once, together with what is filled into it.
    var props := FieldOf(node, "props");
    if !Truthy(props) {
      props := JObj(map[]);
    }
    if !props.JObj? {
      return Err(CannotWrite);
    }
    var propFields := props.fields;
    var style := FieldOf(propFields, "style");
    if !Truthy(style) {
      style := JObj(map[]);
    }
    if !style.JObj? {
      return Err(CannotWrite);
    }
    var styleFields := FillStyleNumbers(style.fields);
    propFields := propFields["style" := JObj(styleFields)];
    node := node["props" := JObj(propFields)];
    r := Ok(JObj(node));
  }

  /** The four numeric style writes of `normalizeRoot`. */
  method FillStyleNumbers(style: map<string, Json>) returns (r: map<string, Json>)
    ensures r == FillStyle(style)
  {
    r := style;
    if !FieldOf(r, "width").JNum? {
      r := r["width" := JNum(1000.0)];
    }
    if !FieldOf(r, "height").JNum? {
      r := r["height" := JNum(800.0)];
    }
    if !FieldOf(r, "padding").JNum? {
      r := r["padding" := JNum(40.0)];
    }
    if !FieldOf(r, "gap").JNum? {
      r := r["gap" := JNum(20.0)];
    }
  }

  function StyleFields(n: Json): map<string, Json>
  {
    var s := Get(Get(n, "props"), "style");
    if s.JObj? then s.fields else map[]
  }

  lemma FillFalsyAt(m: map<string, Json>, key: string, v: Json, k: string)
    ensures m.Keys <= FillFalsy(m, key, v).Keys
    ensures FieldOf(FillFalsy(m, key, v), k) == if k == key then Or(FieldOf(m, key), v) else FieldOf(m, k)
  {
  }

  /** The style default of a key, for the four keys that have one. */
  function StyleDefault(k: string): real
  {
    if k == "width" then 1000.0 else if k == "height" then 800.0
    else if k == "padding" then 40.0 else 20.0
  }

  lemma FillStyleAt(s: map<string, Json>, k: string)
    ensures s.Keys <= FillStyle(s).Keys
    ensures FieldOf(FillStyle(s), k) ==
              if k in {"width", "height", "padding", "gap"} then NumberOr(s, k, StyleDefault(k))
              else FieldOf(s, k)
  {
  }

  /** When normalisation succeeds, a falsy id or type gets its default and a
      truthy one is kept, and `props` and `props.style` are objects. */
  lemma NormalizedNames(root: Json)
    requires root.JObj? && Normalized(root).Ok?
    ensures var n := Normalized(root).value;
            Get(n, "id") == Or(Get(root, "id"), JStr("root"))
            && Get(n, "type") == Or(Get(root, "type"), JStr("Surface"))
            && Get(n, "props").JObj? && Get(Get(n, "props"), "style").JObj?
  {
    var once := FillFalsy(root.fields, "id", JStr("root"));
    FillFalsyAt(root.fields, "id", JStr("root"), "id");
    FillFalsyAt(once, "type", JStr("Surface"), "id");
    FillFalsyAt(once, "type", JStr("Surface"), "type");
  }

  lemma PropsOfRoot(root: Json)
    requires root.JObj?
    ensures PropsOf(root) == Or(Get(root, "props"), JObj(map[]))
  {
    var once := FillFalsy(root.fields, "id", JStr("root"));
    FillFalsyAt(root.fields, "id", JStr("root"), "props");
    FillFalsyAt(once, "type", JStr("Surface"), "props");
  }

  /** When normalisation succeeds, the four style numbers exist: numbers
      given (0 included) are kept and anything else gets 1000/800/40/20. */
  lemma NormalizedNumbers(root: Json, k: string)
    requires root.JObj? && Normalized(root).Ok?
    requires k in {"width", "height", "padding", "gap"}
    ensures Get(Get(Get(Normalized(root).value, "props"), "style"), k)
            == NumberOr(StyleFields(root), k, StyleDefault(k))
  {
    PropsOfRoot(root);
    var style := Or(FieldOf(PropsOf(root).fields, "style"), JObj(map[]));
    assert StyleFields(root) == style.fields;
    FillStyleAt(style.fields, k);
  }

  /** Normalisation succeeds exactly when `props` and `props.style` are each
      absent, falsy or an object. */
  lemma NormalizedOkIff(root: Json)
    requires root.JObj?
    ensures Normalized(root).Ok? <==>
              var props := Get(root, "props");
              (!Truthy(props) || props.JObj?)
              && (!Truthy(props) || !Truthy(Get(props, "style")) || Get(props, "style").JObj?)
  {
    PropsOfRoot(root);
  }

  /** Normalisation writes nothing but the fields it fills in: every other
      key of the root keeps its value (the children among them). */
  lemma NormalizedKeepsRootKeys(root: Json, key: string)
    requires root.JObj? && Normalized(root).Ok?
    requires key !in {"id", "type", "props"}
    ensures Normalized(root).value.JObj?
    ensures root.fields.Keys <= Normalized(root).value.fields.Keys
    ensures Get(Normalized(root).value, key) == Get(root, key)
  {
    var once := FillFalsy(root.fields, "id", JStr("root"));
    FillFalsyAt(root.fields, "id", JStr("root"), key);
    FillFalsyAt(once, "type", JStr("Surface"), key);
  }

  /** ... every other key of the props keeps its value ... */
  lemma NormalizedKeepsPropsKeys(root: Json, key: string)
    requires root.JObj? && Normalized(root).Ok?
    requires key != "style" && Get(root, "props").JObj?
    ensures Get(Get(Normalized(root).value, "props"), key) == Get(Get(root, "props"), key)
  {
    PropsOfRoot(root);
  }

  /** ... and every other key of the style keeps its value. */
  lemma NormalizedKeepsStyleKeys(root: Json, key: string)
    requires root.JObj? && Normalized(root).Ok?
    requires key !in {"width", "height", "padding", "gap"}
    ensures Get(Get(Get(Normalized(root).value, "props"), "style"), key) == FieldOf(StyleFields(root), key)
  {
    PropsOfRoot(root);
    var style := Or(FieldOf(PropsOf(root).fields, "style"), JObj(map[]));
    assert StyleFields(root) == style.fields;
    FillStyleAt(style.fields, key);
  }

  /** Filling in what is already there changes nothing. */
  lemma FillStyleIdempotent(s: map<string, Json>)
    ensures FillStyle(FillStyle(s)) == FillStyle(s)
  {
  }

  /** Normalising twice gives what normalising once gives. */
  lemma NormalizeIdempotent(root: Json)
    requires root.JObj? && Normalized(root).Ok?
    ensures Normalized(root).value.JObj?
    ensures Normalized(Normalized(root).value) == Normalized(root)
  {
    var n := Normalized(root).value;
    var props := PropsOf(root);
    var style := Or(FieldOf(props.fields, "style"), JObj(map[]));
    var filled := FillStyle(style.fields);
    var props' := props.fields["style" := JObj(filled)];
    assert n.fields == Named(root)["props" := JObj(props')];
    NormalizedNames(root);
    assert Named(n) == n.fields;
    assert PropsOf(n) == JObj(props');
    FillStyleIdempotent(style.fields);
    SameWrite(props', "style", JObj(filled));
    SameWrite(n.fields, "props", JObj(props'));
  }

  /** Writing a key the value it already has changes nothing. */
  lemma SameWrite(m: map<string, Json>, key: string, v: Json)
    requires key in m && m[key] == v
    ensures m[key := v] == m
  {
  }
}
