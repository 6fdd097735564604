/** Canonical JSON text of a decoded document: sorted keys, no spaces, one escaping (RFC 8259, sections 2 to 7). */
module CanonicalJson {
  import opened Ordering

  /** A decoded document; numbers keep the literal that was written. */
  datatype Json =
    | Null
    | Bool(value: bool)
    | Number(literal: string)
    | Text(text: string)
    | Array(items: seq<Json>)
    | Object(members: map<string, Json>)

  // ------------------------------------------------------------------ strings

  const HEX: string := "0123456789abcdef"

  function HexDigit(n: nat): char
    requires n < 16
  {
    HEX[n]
  }

  predicate Plain(c: char) {
    c != '"' && c != '\\' && 32 <= c as int && c != '\U{2028}' && c != '\U{2029}'
  }

  /** What follows the backslash. */
  function Code(c: char): string
    requires !Plain(c)
  {
    if c == '"' then "\""
    else if c == '\\' then "\\"
    else if c == '\U{8}' then "b"
    else if c == '\U{C}' then "f"
    else if c == '\n' then "n"
    else if c == '\r' then "r"
    else if c == '\t' then "t"
    else if c == '\U{2028}' then "u2028"
    else if c == '\U{2029}' then "u2029"
    else "u00" + [HexDigit(c as int / 16), HexDigit(c as int % 16)]
  }

  function Escape(c: char): string {
    if Plain(c) then [c] else "\\" + Code(c)
  }

  function EscapeAll(s: string): string {
    if s == "" then "" else Escape(s[0]) + EscapeAll(s[1..])
  }

  function Quote(s: string): string {
    "\"" + EscapeAll(s) + "\""
  }

  lemma CodePrefix(c: char, d: char, x: string, y: string)
    requires !Plain(c) && !Plain(d) && Code(c) + x == Code(d) + y
    ensures c == d && x == y
  {
    assert (Code(c) + x)[0] == (Code(d) + y)[0];
    if |Code(c)| == 1 {
      assert x == (Code(c) + x)[1..] && y == (Code(d) + y)[1..];
    } else {
      assert (Code(c) + x)[1] == (Code(d) + y)[1];
      assert (Code(c) + x)[3] == (Code(d) + y)[3];
      assert (Code(c) + x)[4] == (Code(d) + y)[4];
      assert x == (Code(c) + x)[5..] && y == (Code(d) + y)[5..];
      if c as int < 32 && d as int < 32 {
        HexIsInjective(c as int / 16, d as int / 16);
        HexIsInjective(c as int % 16, d as int % 16);
      }
    }
  }

  /** Two escapes that begin the same text are the same escape. */
  lemma EscapePrefix(c: char, d: char, x: string, y: string)
    requires Escape(c) + x == Escape(d) + y
    ensures c == d && x == y
  {
    assert (Escape(c) + x)[0] == (Escape(d) + y)[0];
    if Plain(c) {
      assert x == (Escape(c) + x)[1..] && y == (Escape(d) + y)[1..];
    } else {
      assert (Escape(c) + x)[1..] == Code(c) + x && (Escape(d) + y)[1..] == Code(d) + y;
      CodePrefix(c, d, x, y);
    }
  }

  lemma HexIsInjective(m: nat, n: nat)
    requires m < 16 && n < 16
    ensures HexDigit(m) == HexDigit(n) ==> m == n
  {
  }

  lemma EscapeStart(c: char)
    ensures Escape(c) != "" && Escape(c)[0] != '"'
  {
  }

  /** The text is over exactly when its closing quote comes first; otherwise an escape comes first. */
  lemma TextStep(s: string, x: string)
    ensures s == "" ==> EscapeAll(s) + "\"" + x == "\"" + x
    ensures s != "" ==> EscapeAll(s) + "\"" + x == Escape(s[0]) + (EscapeAll(s[1..]) + "\"" + x)
    ensures (EscapeAll(s) + "\"" + x)[0] == '"' <==> s == ""
  {
    if s != "" {
      EscapeStart(s[0]);
    }
  }

  lemma {:induction false} TextPrefix(s: string, t: string, x: string, y: string)
    requires EscapeAll(s) + "\"" + x == EscapeAll(t) + "\"" + y
    ensures s == t && x == y
  {
    TextStep(s, x);
    TextStep(t, y);
    if s == "" {
      assert x == ("\"" + x)[1..] && y == ("\"" + y)[1..];
    } else {
      EscapePrefix(s[0], t[0], EscapeAll(s[1..]) + "\"" + x, EscapeAll(t[1..]) + "\"" + y);
      TextPrefix(s[1..], t[1..], x, y);
      assert s == [s[0]] + s[1..] && t == [t[0]] + t[1..];
    }
  }

  lemma QuoteStep(s: string, x: string)
    ensures (Quote(s) + x)[1..] == EscapeAll(s) + "\"" + x
  {
  }

  lemma QuotePrefix(s: string, t: string, x: string, y: string)
    requires Quote(s) + x == Quote(t) + y
    ensures s == t && x == y
  {
    QuoteStep(s, x);
    QuoteStep(t, y);
    TextPrefix(s, t, x, y);
  }

  // ----------------------------------------------------------------- documents

  predicate NumberChar(c: char) {
    '0' <= c <= '9' || c == '-' || c == '+' || c == '.' || c == 'e' || c == 'E'
  }

  /** A number literal as the decoder accepts it: number characters, led by a digit or a minus sign. */
  predicate NumberLiteral(s: string) {
    s != "" && (s[0] == '-' || '0' <= s[0] <= '9') && forall i :: 0 <= i < |s| ==> NumberChar(s[i])
  }

  predicate Decoded(v: Json) {
    match v
    case Number(literal) => NumberLiteral(literal)
    case Array(items) => forall i :: 0 <= i < |items| ==> Decoded(items[i])
    case Object(members) => forall k :: k in members ==> Decoded(members[k])
    case _ => true
  }

  ghost function Print(v: Json): string
    decreases v, 2
  {
    match v
    case Null => "null"
    case Bool(value) => if value then "true" else "false"
    case Number(literal) => literal
    case Text(text) => Quote(text)
    case Array(_) => "[" + PrintItems(v, 0)
    case Object(members) => "{" + PrintMembers(v, SortedKeys(members.Keys), 0)
  }

  function Comma(i: nat): string {
    if i > 0 then "," else ""
  }

  /** The items from the i-th on, and the closing bracket. */
  ghost function PrintItems(v: Json, i: nat): string
    requires v.Array? && i <= |v.items|
    decreases v, 1, |v.items| - i
  {
    if i == |v.items| then "]" else Comma(i) + (Print(v.items[i]) + PrintItems(v, i + 1))
  }

  /** The members from the i-th key on, and the closing brace. */
  ghost function PrintMembers(v: Json, keys: seq<string>, i: nat): string
    requires v.Object? && i <= |keys| && forall k :: k in keys ==> k in v.members
    decreases v, 1, |keys| - i
  {
    if i == |keys| then "}"
    else Comma(i) + (Quote(keys[i]) + (":" + (Print(v.members[keys[i]]) + PrintMembers(v, keys, i + 1))))
  }

  // ---------------------------------------------------------- self-delimiting

  /** What may follow a value: nothing that could continue a number. */
  predicate Stops(rest: string) {
    rest == "" || !NumberChar(rest[0])
  }

  datatype Kind = NullKind | TrueKind | FalseKind | NumberKind | TextKind | ArrayKind | ObjectKind

  function KindOf(v: Json): Kind {
    match v
    case Null => NullKind
    case Bool(value) => if value then TrueKind else FalseKind
    case Number(_) => NumberKind
    case Text(_) => TextKind
    case Array(_) => ArrayKind
    case Object(_) => ObjectKind
  }

  function KindFrom(c: char): Kind {
    if c == 'n' then NullKind
    else if c == 't' then TrueKind
    else if c == 'f' then FalseKind
    else if c == '"' then TextKind
    else if c == '[' then ArrayKind
    else if c == '{' then ObjectKind
    else NumberKind
  }

  /** The first character tells the kind of the value, and is none of the closing or separating ones. */
  lemma FirstChar(v: Json)
    requires Decoded(v)
    ensures Print(v) != "" && KindFrom(Print(v)[0]) == KindOf(v)
    ensures Print(v)[0] != ']' && Print(v)[0] != '}' && Print(v)[0] != ','
  {
  }

  lemma SameKind(v: Json, w: Json, r: string, s: string)
    requires Decoded(v) && Decoded(w) && Print(v) + r == Print(w) + s
    ensures KindOf(v) == KindOf(w)
  {
    FirstChar(v);
    FirstChar(w);
    assert (Print(v) + r)[0] == Print(v)[0] && (Print(w) + s)[0] == Print(w)[0];
  }

  lemma Cancel(p: string, x: string, y: string)
    requires p + x == p + y
    ensures x == y
  {
    assert x == (p + x)[|p|..] && y == (p + y)[|p|..];
  }

  lemma Assoc(a: string, b: string, c: string)
    ensures a + b + c == a + (b + c)
  {
  }

  lemma {:induction false} NumberPrefix(a: string, b: string, r: string, s: string)
    requires forall i :: 0 <= i < |a| ==> NumberChar(a[i])
    requires forall i :: 0 <= i < |b| ==> NumberChar(b[i])
    requires Stops(r) && Stops(s) && a + r == b + s
    ensures a == b && r == s
  {
    assert a != "" ==> (a + r)[0] == a[0];
    assert b != "" ==> (b + s)[0] == b[0];
    assert a == "" ==> a + r == r;
    assert b == "" ==> b + s == s;
    if a != "" && b != "" {
      assert (a + r)[1..] == a[1..] + r && (b + s)[1..] == b[1..] + s;
      NumberPrefix(a[1..], b[1..], r, s);
      assert a == [a[0]] + a[1..] && b == [b[0]] + b[1..];
    }
  }

  /** A printed array part is a closing bracket, or an item followed by a further part. */
  lemma ItemsStep(v: Json, i: nat, r: string)
    requires v.Array? && i <= |v.items| && Decoded(v)
    ensures PrintItems(v, i) != ""
    ensures (PrintItems(v, i) + r)[0] == ']' <==> i == |v.items|
    ensures i == |v.items| ==> PrintItems(v, i) + r == "]" + r
    ensures i < |v.items| ==>
              && PrintItems(v, i) + r == Comma(i) + (Print(v.items[i]) + (PrintItems(v, i + 1) + r))
              && Stops(PrintItems(v, i + 1) + r)
  {
    if i < |v.items| {
      FirstChar(v.items[i]);
    }
  }

  lemma MembersStep(v: Json, keys: seq<string>, i: nat, r: string)
    requires v.Object? && i <= |keys| && forall k :: k in keys ==> k in v.members
    ensures PrintMembers(v, keys, i) != ""
    ensures (PrintMembers(v, keys, i) + r)[0] == '}' <==> i == |keys|
    ensures i == |keys| ==> PrintMembers(v, keys, i) + r == "}" + r
    ensures i < |keys| ==>
              && PrintMembers(v, keys, i) + r ==
                 Comma(i) + (Quote(keys[i]) + (":" + (Print(v.members[keys[i]]) + (PrintMembers(v, keys, i + 1) + r))))
              && Stops(PrintMembers(v, keys, i + 1) + r)
  {
    if i < |keys| {
      var rest := PrintMembers(v, keys, i + 1);
      var value := Print(v.members[keys[i]]);
      Assoc(value, rest, r);
      Assoc(":", value + rest, r);
      Assoc(Quote(keys[i]), ":" + (value + rest), r);
      Assoc(Comma(i), Quote(keys[i]) + (":" + (value + rest)), r);
      MembersStart(v, keys, i + 1, r);
    }
    MembersStart(v, keys, i, r);
  }

  lemma MembersStart(v: Json, keys: seq<string>, i: nat, r: string)
    requires v.Object? && i <= |keys| && forall k :: k in keys ==> k in v.members
    ensures PrintMembers(v, keys, i) != ""
    ensures (PrintMembers(v, keys, i) + r)[0] == if i == |keys| then '}' else if i > 0 then ',' else '"'
  {
    if i < |keys| && i == 0 {
      assert Comma(0) + (Quote(keys[0]) + (":" + (Print(v.members[keys[0]]) + PrintMembers(v, keys, 1)))) ==
             Quote(keys[0]) + (":" + (Print(v.members[keys[0]]) + PrintMembers(v, keys, 1)));
    }
  }

  lemma ContainerStep(v: Json, r: string)
    requires v.Array? || v.Object?
    ensures v.Array? ==> Print(v) + r == "[" + (PrintItems(v, 0) + r)
    ensures v.Object? ==> Print(v) + r == "{" + (PrintMembers(v, SortedKeys(v.members.Keys), 0) + r)
  {
  }

  lemma SameMembers(m: map<string, Json>, n: map<string, Json>, keys: seq<string>)
    requires (forall k :: k in keys <==> k in m) && (forall k :: k in keys <==> k in n)
    requires forall k :: k in keys ==> m[k] == n[k]
    ensures m == n
  {
  }

  /** Printed values are self-delimiting: a text determines the value it starts with and what remains. */
  lemma {:induction false} PrintPrefix(v: Json, w: Json, r: string, s: string)
    requires Decoded(v) && Decoded(w) && Stops(r) && Stops(s) && Print(v) + r == Print(w) + s
    ensures v == w && r == s
    decreases v, 2
  {
    SameKind(v, w, r, s);
    match v
    case Null => Cancel("null", r, s);
    case Bool(value) => Cancel(if value then "true" else "false", r, s);
    case Number(literal) => NumberPrefix(literal, w.literal, r, s);
    case Text(text) => QuotePrefix(text, w.text, r, s);
    case Array(items) =>
      ContainerStep(v, r);
      ContainerStep(w, s);
      Cancel("[", PrintItems(v, 0) + r, PrintItems(w, 0) + s);
      ItemsPrefix(v, w, 0, r, s);
      assert items == items[0..] && w.items == w.items[0..];
    case Object(members) =>
      var ks, ls := SortedKeys(members.Keys), SortedKeys(w.members.Keys);
      ContainerStep(v, r);
      ContainerStep(w, s);
      Cancel("{", PrintMembers(v, ks, 0) + r, PrintMembers(w, ls, 0) + s);
      MembersPrefix(v, w, ks, ls, 0, r, s);
      assert ks == ks[0..] && ls == ls[0..];
      SameMembers(members, w.members, ks);
  }

  lemma {:induction false} ItemsPrefix(v: Json, w: Json, i: nat, r: string, s: string)
    requires v.Array? && w.Array? && Decoded(v) && Decoded(w) && i <= |v.items| && i <= |w.items|
    requires Stops(r) && Stops(s) && PrintItems(v, i) + r == PrintItems(w, i) + s
    ensures v.items[i..] == w.items[i..] && r == s
    decreases v, 1, |v.items| - i
  {
    ItemsStep(v, i, r);
    ItemsStep(w, i, s);
    if i == |v.items| {
      Cancel("]", r, s);
    } else {
      var x, y := PrintItems(v, i + 1) + r, PrintItems(w, i + 1) + s;
      Cancel(Comma(i), Print(v.items[i]) + x, Print(w.items[i]) + y);
      PrintPrefix(v.items[i], w.items[i], x, y);
      ItemsPrefix(v, w, i + 1, r, s);
      assert v.items[i..] == [v.items[i]] + v.items[i + 1..] && w.items[i..] == [w.items[i]] + w.items[i + 1..];
    }
  }

  lemma {:induction false} MembersPrefix(v: Json, w: Json, ks: seq<string>, ls: seq<string>, i: nat, r: string, s: string)
    requires v.Object? && w.Object? && Decoded(v) && Decoded(w) && i <= |ks| && i <= |ls|
    requires (forall k :: k in ks ==> k in v.members) && (forall k :: k in ls ==> k in w.members)
    requires Stops(r) && Stops(s) && PrintMembers(v, ks, i) + r == PrintMembers(w, ls, i) + s
    ensures ks[i..] == ls[i..] && r == s
    ensures forall k :: k in ks[i..] ==> k in w.members && v.members[k] == w.members[k]
    decreases v, 1, |ks| - i
  {
    MembersStep(v, ks, i, r);
    MembersStep(w, ls, i, s);
    if i == |ks| {
      Cancel("}", r, s);
    } else {
      var x, y := PrintMembers(v, ks, i + 1) + r, PrintMembers(w, ls, i + 1) + s;
      var a, b := Print(v.members[ks[i]]) + x, Print(w.members[ls[i]]) + y;
      Cancel(Comma(i), Quote(ks[i]) + (":" + a), Quote(ls[i]) + (":" + b));
      QuotePrefix(ks[i], ls[i], ":" + a, ":" + b);
      Cancel(":", a, b);
      PrintPrefix(v.members[ks[i]], w.members[ls[i]], x, y);
      MembersPrefix(v, w, ks, ls, i + 1, r, s);
      assert ks[i..] == [ks[i]] + ks[i + 1..] && ls[i..] == [ls[i]] + ls[i + 1..];
    }
  }

  /** Two documents have the same canonical text only if they are the same document. */
  lemma CanonicalIsInjective(v: Json, w: Json)
    requires Decoded(v) && Decoded(w) && Print(v) == Print(w)
    ensures v == w
  {
    assert Print(v) + "" == Print(v) && Print(w) + "" == Print(w);
    PrintPrefix(v, w, "", "");
  }

  // ------------------------------------------------------------------- writer

  /** Drops every trailing c. */
  function TrimRight(s: string, c: char): string {
    if s != "" && s[|s| - 1] == c then TrimRight(s[..|s| - 1], c) else s
  }

  lemma EncoderLineTrims(s: string)
    ensures TrimRight(Quote(s) + "\n", '\n') == Quote(s)
  {
    var q := Quote(s);
    assert q[|q| - 1] == '"';
    assert (q + "\n")[..|q|] == q;
  }

  /** Appends the encoder's line for the string without the newline that ends it. */
  method WriteString(buf: string, s: string) returns (out: string)
    ensures out == buf + Quote(s)
  {
    var tmp := Quote(s) + "\n";
    EncoderLineTrims(s);
    out := buf + TrimRight(tmp, '\n');
  }

  /** Appends the items and the closing bracket. */
  method WriteItems(buf: string, v: Json) returns (out: string)
    requires v.Array?
    ensures out == buf + PrintItems(v, 0)
    decreases v, 1
  {
    out := buf;
    var i := 0;
    while i < |v.items|
      invariant 0 <= i <= |v.items|
      invariant out + PrintItems(v, i) == buf + PrintItems(v, 0)
    {
      ghost var before, value, rest := out, Print(v.items[i]), PrintItems(v, i + 1);
      if i > 0 {
        out := out + ",";
      }
      assert out == before + Comma(i);
      out := WriteCanonical(out, v.items[i]);
      Assoc(before, Comma(i), value + rest);
      Assoc(before + Comma(i), value, rest);
      i := i + 1;
    }
    out := out + "]";
  }

  /** Sorts the keys, whatever order the map yields them in, and appends the members and the closing brace. */
  method WriteMembers(buf: string, v: Json) returns (out: string)
    requires v.Object?
    ensures out == buf + PrintMembers(v, SortedKeys(v.members.Keys), 0)
    decreases v, 1
  {
    var keys := SortKeys(v.members.Keys);
    SortedIsUnique(keys, SortedKeys(v.members.Keys));
    out := buf;
    var i := 0;
    while i < |keys|
      invariant 0 <= i <= |keys|
      invariant out + PrintMembers(v, keys, i) == buf + PrintMembers(v, keys, 0)
    {
      ghost var before, value, rest := out, Print(v.members[keys[i]]), PrintMembers(v, keys, i + 1);
      if i > 0 {
        out := out + ",";
      }
      assert out == before + Comma(i);
      out := WriteString(out, keys[i]);
      out := out + ":";
      out := WriteCanonical(out, v.members[keys[i]]);
      Assoc(before, Comma(i), Quote(keys[i]) + (":" + (value + rest)));
      Assoc(before + Comma(i), Quote(keys[i]), ":" + (value + rest));
      Assoc(before + Comma(i) + Quote(keys[i]), ":", value + rest);
      Assoc(before + Comma(i) + Quote(keys[i]) + ":", value, rest);
      i := i + 1;
    }
    out := out + "}";
  }

  /** Appends the canonical text of a value. */
  method WriteCanonical(buf: string, v: Json) returns (out: string)
    ensures out == buf + Print(v)
    decreases v, 2
  {
    match v
    case Null => out := buf + "null";
    case Bool(value) => out := buf + if value then "true" else "false";
    case Number(literal) => out := buf + literal;
    case Text(text) => out := WriteString(buf, text);
    case Array(_) => out := WriteItems(buf + "[", v);
    case Object(_) => out := WriteMembers(buf + "{", v);
  }
}
