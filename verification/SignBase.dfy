/**
 * The canonical string that requests to the shop gateway are signed over. Strings are
 * sequences of UTF-16 code units; encoding follows sections 2.1 and 2.3 of RFC 3986. A
 * decoder that undoes encoding, sorting and joining shows the string determines the signed
 * parameters.
 */
module SignBase {
  import opened Common

  type CodeUnit = x: nat | x < 0x1_0000
  type Text = seq<CodeUnit>

  const AMPERSAND: CodeUnit := 0x26
  const EQUALS: CodeUnit := 0x3D
  const PERCENT: CodeUnit := 0x25

  // ---------------------------------------------------------------------------
  // Code units, code points, bytes
  // ---------------------------------------------------------------------------

  predicate IsHigh(u: nat) { 0xD800 <= u < 0xDC00 }

  predicate IsLow(u: nat) { 0xDC00 <= u < 0xE000 }

  function Combine(high: int, low: int): (c: nat)
    requires 0xD800 <= high < 0xDC00 <= low < 0xE000
    ensures 0x1_0000 <= c < 0x11_0000
  {
    (high - 0xD800) * 0x400 + (low - 0xDC00) + 0x1_0000
  }

  /** A lone surrogate makes encodeURIComponent throw. */
  function CodePoints(s: Text): (r: Option<seq<nat>>)
    ensures r.Some? ==> forall k :: 0 <= k < |r.value| ==> IsScalar(r.value[k])
  {
    if s == [] then Some([])
    else if IsHigh(s[0]) then
      if |s| > 1 && IsLow(s[1]) then Prepend(Combine(s[0], s[1]), CodePoints(s[2..])) else None
    else if IsLow(s[0]) then None
    else Prepend(s[0], CodePoints(s[1..]))
  }

  predicate IsScalar(c: nat) { c < 0x11_0000 && !IsHigh(c) && !IsLow(c) }

  function Prepend(c: nat, r: Option<seq<nat>>): Option<seq<nat>> {
    if r.None? then None else Some([c] + r.value)
  }

  function ToUnits(cps: seq<nat>): Text
    requires forall k :: 0 <= k < |cps| ==> cps[k] < 0x11_0000
  {
    if cps == [] then []
    else if cps[0] < 0x1_0000 then [cps[0]] + ToUnits(cps[1..])
    else [0xD800 + (cps[0] - 0x1_0000) / 0x400, 0xDC00 + (cps[0] - 0x1_0000) % 0x400] + ToUnits(cps[1..])
  }

  lemma CombineBack(high: int, low: int)
    requires 0xD800 <= high < 0xDC00 <= low < 0xE000
    ensures var c := Combine(high, low);
      0xD800 + (c - 0x1_0000) / 0x400 == high && 0xDC00 + (c - 0x1_0000) % 0x400 == low
  {
  }

  lemma UnitsNext(c: nat, rest: seq<nat>)
    requires c < 0x11_0000 && forall k :: 0 <= k < |rest| ==> rest[k] < 0x11_0000
    ensures ToUnits([c] + rest)
            == (if c < 0x1_0000 then [c] else [0xD800 + (c - 0x1_0000) / 0x400, 0xDC00 + (c - 0x1_0000) % 0x400]) + ToUnits(rest)
  {
    assert ([c] + rest)[1..] == rest;
  }

  lemma {:induction false} UnitsBack(s: Text)
    requires CodePoints(s).Some?
    ensures ToUnits(CodePoints(s).value) == s
  {
    if s != [] {
      if IsHigh(s[0]) {
        UnitsBack(s[2..]);
        CombineBack(s[0], s[1]);
        UnitsNext(Combine(s[0], s[1]), CodePoints(s[2..]).value);
        assert s == [s[0], s[1]] + s[2..];
      } else {
        UnitsBack(s[1..]);
        UnitsNext(s[0], CodePoints(s[1..]).value);
      }
    }
  }

  type Byte = x: nat | x < 0x100

  function Utf8(c: nat): seq<Byte>
    requires c < 0x11_0000
  {
    if c < 0x80 then [c]
    else if c < 0x800 then [0xC0 + c / 0x40, 0x80 + c % 0x40]
    else if c < 0x1_0000 then [0xE0 + c / 0x1000, 0x80 + c / 0x40 % 0x40, 0x80 + c % 0x40]
    else [0xF0 + c / 0x4_0000, 0x80 + c / 0x1000 % 0x40, 0x80 + c / 0x40 % 0x40, 0x80 + c % 0x40]
  }

  function Utf8All(cps: seq<nat>): seq<Byte>
    requires forall k :: 0 <= k < |cps| ==> IsScalar(cps[k])
  {
    if cps == [] then [] else assert IsScalar(cps[0]); Utf8(cps[0]) + Utf8All(cps[1..])
  }

  /** How many bytes the character starting with this one takes. */
  function Width(lead: Byte): nat {
    if lead < 0x80 then 1 else if lead < 0xE0 then 2 else if lead < 0xF0 then 3 else 4
  }

  function FromUtf8(b: seq<int>): int
    requires 1 <= |b| <= 4
  {
    if |b| == 1 then b[0]
    else if |b| == 2 then (b[0] - 0xC0) * 0x40 + (b[1] - 0x80)
    else if |b| == 3 then (b[0] - 0xE0) * 0x1000 + (b[1] - 0x80) * 0x40 + (b[2] - 0x80)
    else (b[0] - 0xF0) * 0x4_0000 + (b[1] - 0x80) * 0x1000 + (b[2] - 0x80) * 0x40 + (b[3] - 0x80)
  }

  function DecodeUtf8(b: seq<Byte>): seq<int> {
    if b == [] || |b| < Width(b[0]) then []
    else [FromUtf8(b[..Width(b[0])])] + DecodeUtf8(b[Width(b[0])..])
  }

  lemma Utf8Back(c: nat)
    requires IsScalar(c)
    ensures |Utf8(c)| == Width(Utf8(c)[0]) && FromUtf8(Utf8(c)) == c
  {
    if 0x80 <= c {
      assert c == c / 0x40 * 0x40 + c % 0x40;
      if 0x800 <= c {
        assert c / 0x40 == c / 0x1000 * 0x40 + c / 0x40 % 0x40;
        if 0x1_0000 <= c { assert c / 0x1000 == c / 0x4_0000 * 0x40 + c / 0x1000 % 0x40; }
      }
    }
  }

  /** The bytes `b` encode `c` by the table of section 3 of RFC 3629, in the shortest form. */
  predicate EncodesInUtf8(b: seq<int>, c: int) {
    || (|b| == 1 && c <= 0x7F && b[0] == c)
    || (|b| == 2 && 0x80 <= c <= 0x7FF && 0xC0 <= b[0] < 0xE0 && Tail(b[1]) && c == (b[0] - 0xC0) * 64 + (b[1] - 0x80))
    || (|b| == 3 && 0x800 <= c <= 0xFFFF && 0xE0 <= b[0] < 0xF0 && Tail(b[1]) && Tail(b[2])
        && c == (b[0] - 0xE0) * 4096 + (b[1] - 0x80) * 64 + (b[2] - 0x80))
    || (|b| == 4 && 0x1_0000 <= c && 0xF0 <= b[0] < 0xF8 && Tail(b[1]) && Tail(b[2]) && Tail(b[3])
        && c == (b[0] - 0xF0) * 262_144 + (b[1] - 0x80) * 4096 + (b[2] - 0x80) * 64 + (b[3] - 0x80))
  }

  predicate Tail(b: int) { 0x80 <= b < 0xC0 }

  lemma Utf8IsStandard(c: nat)
    requires IsScalar(c)
    ensures EncodesInUtf8(Utf8(c), c)
  {
    Utf8Back(c);
  }

  lemma {:induction false} Utf8AllBack(cps: seq<nat>)
    requires forall k :: 0 <= k < |cps| ==> IsScalar(cps[k])
    ensures DecodeUtf8(Utf8All(cps)) == cps
  {
    if cps != [] {
      Utf8Back(cps[0]);
      Utf8AllBack(cps[1..]);
      var b := Utf8(cps[0]) + Utf8All(cps[1..]);
      assert b[..Width(b[0])] == Utf8(cps[0]) && b[Width(b[0])..] == Utf8All(cps[1..]);
    }
  }

  // ---------------------------------------------------------------------------
  // Percent-encoding
  // ---------------------------------------------------------------------------

  predicate IsAlphanumeric(b: nat) { 0x30 <= b <= 0x39 || 0x41 <= b <= 0x5A || 0x61 <= b <= 0x7A }

  /** Unreserved characters of RFC 3986: letters, digits, - . _ ~ */
  predicate IsUnreserved(b: nat) { IsAlphanumeric(b) || b in {0x2D, 0x2E, 0x5F, 0x7E} }

  /** The five characters encodeURIComponent leaves alone although RFC 3986 reserves them: ! ' ( ) * */
  predicate IsLeftAlone(b: nat) { b == 0x21 || 0x27 <= b <= 0x2A }

  function Hex(d: nat): CodeUnit
    requires d < 16
  {
    if d < 10 then 0x30 + d else 0x37 + d
  }

  function Escape(b: Byte): Text { [PERCENT, Hex(b / 16), Hex(b % 16)] }

  /** encodeURIComponent over the UTF-8 bytes. */
  function Component(bytes: seq<Byte>): Text {
    if bytes == [] then []
    else (if IsUnreserved(bytes[0]) || IsLeftAlone(bytes[0]) then [bytes[0]] else Escape(bytes[0])) + Component(bytes[1..])
  }

  /** The replacement of ! ' ( ) * by their escapes. */
  function Patched(t: Text): Text {
    if t == [] then [] else (if IsLeftAlone(t[0]) then Escape(t[0]) else [t[0]]) + Patched(t[1..])
  }

  /** Unreserved by section 2.3 of RFC 3986. */
  predicate MayStay(b: int) {
    'A' as int <= b <= 'Z' as int || 'a' as int <= b <= 'z' as int || '0' as int <= b <= '9' as int
    || b == '-' as int || b == '.' as int || b == '_' as int || b == '~' as int
  }

  /** The upper-case hexadecimal digit that section 2.1 of RFC 3986 asks for. */
  function UpperHex(d: nat): CodeUnit
    requires d < 16
  {
    "0123456789ABCDEF"[d] as int
  }

  /** Every byte outside the unreserved set escaped, as RFC 3986 has it. */
  function Percent(bytes: seq<Byte>): Text {
    if bytes == [] then []
    else
      (if MayStay(bytes[0]) then [bytes[0]] else ['%' as int, UpperHex(bytes[0] / 16), UpperHex(bytes[0] % 16)])
      + Percent(bytes[1..])
  }

  lemma SameEscape(b: Byte)
    ensures MayStay(b) <==> IsUnreserved(b)
    ensures Escape(b) == ['%' as int, UpperHex(b / 16), UpperHex(b % 16)]
  {
  }

  lemma {:induction false} PatchedConcat(a: Text, b: Text)
    ensures Patched(a + b) == Patched(a) + Patched(b)
  {
    if a == [] {
      assert a + b == b;
    } else {
      assert (a + b)[1..] == a[1..] + b;
      PatchedConcat(a[1..], b);
    }
  }

  lemma PatchedEscape(b: Byte)
    ensures Patched(Escape(b)) == Escape(b)
  {
    var e := Escape(b);
    assert e[1..] == [e[1], e[2]] && e[1..][1..] == [e[2]] && e[1..][1..][1..] == [];
    assert Patched([e[2]]) == [e[2]];
    assert Patched(e[1..]) == [e[1], e[2]];
  }

  /** The two-stage encoding is exactly the one of RFC 3986. */
  lemma {:induction false} PatchedIsPercent(bytes: seq<Byte>)
    ensures Patched(Component(bytes)) == Percent(bytes)
  {
    if bytes != [] {
      var b := bytes[0];
      PatchedIsPercent(bytes[1..]);
      SameEscape(b);
      var head: Text := if IsUnreserved(b) || IsLeftAlone(b) then [b] else Escape(b);
      PatchedConcat(head, Component(bytes[1..]));
      if IsUnreserved(b) || IsLeftAlone(b) {
        assert [b][1..] == [];
        assert Patched([b]) == if IsLeftAlone(b) then Escape(b) else [b];
      } else {
        PatchedEscape(b);
      }
    }
  }

  function Digit(u: CodeUnit): nat { if u < 0x3A then (if u < 0x30 then 0 else u - 0x30) else if u < 0x41 then 0 else (u - 0x37) % 16 }

  function Unescape(t: Text): seq<Byte> {
    if t == [] then []
    else if t[0] == PERCENT && |t| >= 3 then [(Digit(t[1]) * 16 + Digit(t[2])) % 0x100] + Unescape(t[3..])
    else [t[0] % 0x100] + Unescape(t[1..])
  }

  lemma EscapeBack(b: Byte)
    ensures Digit(Hex(b / 16)) * 16 + Digit(Hex(b % 16)) == b
  {
  }

  lemma UnescapeNext(b: Byte, rest: Text)
    ensures Unescape(Escape(b) + rest) == [b] + Unescape(rest)
    ensures b != PERCENT ==> Unescape([b] + rest) == [b] + Unescape(rest)
  {
    EscapeBack(b);
    assert (Escape(b) + rest)[3..] == rest && ([b] + rest)[1..] == rest;
  }

  lemma PercentNext(bytes: seq<Byte>)
    requires bytes != []
    ensures Percent(bytes) == (if IsUnreserved(bytes[0]) then [bytes[0]] else Escape(bytes[0])) + Percent(bytes[1..])
  {
    SameEscape(bytes[0]);
  }

  lemma {:induction false} PercentBack(bytes: seq<Byte>)
    ensures Unescape(Percent(bytes)) == bytes
  {
    if bytes != [] {
      var b, rest := bytes[0], Percent(bytes[1..]);
      PercentBack(bytes[1..]);
      PercentNext(bytes);
      UnescapeNext(b, rest);
      assert bytes == [b] + bytes[1..];
    }
  }

  predicate IsClean(t: Text) { forall k :: 0 <= k < |t| ==> t[k] != AMPERSAND && t[k] != EQUALS }

  lemma {:induction false} PercentIsClean(bytes: seq<Byte>)
    ensures IsClean(Percent(bytes))
  {
    if bytes != [] {
      SameEscape(bytes[0]);
      PercentIsClean(bytes[1..]);
    }
  }

  /** rfc3986; no result when the string has a lone surrogate. */
  function Rfc3986(s: Text): Option<Text> {
    var cps := CodePoints(s);
    if cps.None? then None else Some(Patched(Component(Utf8All(cps.value))))
  }

  function Decoded(t: Text): Option<Text> {
    var cps := DecodeUtf8(Unescape(t));
    if forall k :: 0 <= k < |cps| ==> 0 <= cps[k] < 0x11_0000 then Some(ToUnits(cps)) else None
  }

  /** Encoding loses nothing and never produces a separator. */
  lemma EncodingInverts(s: Text)
    requires Rfc3986(s).Some?
    ensures Decoded(Rfc3986(s).value) == Some(s) && IsClean(Rfc3986(s).value)
  {
    var cps := CodePoints(s).value;
    PatchedIsPercent(Utf8All(cps));
    PercentBack(Utf8All(cps));
    Utf8AllBack(cps);
    UnitsBack(s);
    PercentIsClean(Utf8All(cps));
  }

  // ---------------------------------------------------------------------------
  // Key order
  // ---------------------------------------------------------------------------

  /** Dictionary order by code units. */
  predicate Less(a: Text, b: Text) {
    if b == [] then false else if a == [] then true else a[0] < b[0] || (a[0] == b[0] && Less(a[1..], b[1..]))
  }

  lemma {:induction false} LessTransitive(a: Text, b: Text, c: Text)
    requires Less(a, b) && Less(b, c)
    ensures Less(a, c)
  {
    if a != [] && a[0] == b[0] && b[0] == c[0] { LessTransitive(a[1..], b[1..], c[1..]); }
  }

  lemma {:induction false} LessTotal(a: Text, b: Text)
    ensures Less(a, b) || a == b || Less(b, a)
    ensures !(Less(a, b) && Less(b, a)) && !Less(a, a)
  {
    if a != [] { LessIrreflexive(a); }
    if a != [] && b != [] && a[0] == b[0] {
      LessTotal(a[1..], b[1..]);
      assert a == [a[0]] + a[1..] && b == [b[0]] + b[1..];
    }
  }

  lemma {:induction false} LessIrreflexive(a: Text)
    ensures !Less(a, a)
  {
    if a != [] { LessIrreflexive(a[1..]); }
  }

  /** At place `n` the texts first differ, `a` having the smaller unit or none. */
  predicate DiffersAt(a: Text, b: Text, n: nat) {
    n <= |a| && n < |b| && a[..n] == b[..n] && (n == |a| || a[n] < b[n])
  }

  ghost predicate Precedes(a: Text, b: Text) { exists n: nat :: DiffersAt(a, b, n) }

  lemma {:induction false} LessMeans(a: Text, b: Text)
    ensures Less(a, b) <==> Precedes(a, b)
  {
    if b != [] {
      if a == [] {
        assert DiffersAt(a, b, 0);
      } else {
        LessMeans(a[1..], b[1..]);
        if a[0] == b[0] && Less(a[1..], b[1..]) {
          var n: nat :| DiffersAt(a[1..], b[1..], n);
          assert a[..n + 1] == [a[0]] + a[1..][..n] && b[..n + 1] == [b[0]] + b[1..][..n];
          assert DiffersAt(a, b, n + 1);
        }
        if a[0] < b[0] { assert DiffersAt(a, b, 0); }
        if n: nat :| DiffersAt(a, b, n) {
          if n > 0 {
            assert a[0] == a[..n][0] == b[..n][0] == b[0];
            assert a[1..][..n - 1] == a[..n][1..] && b[1..][..n - 1] == b[..n][1..];
            assert DiffersAt(a[1..], b[1..], n - 1);
          }
        }
      }
    }
  }

  predicate InOrder(keys: seq<Text>) { forall i, j :: 0 <= i < j < |keys| ==> Less(keys[i], keys[j]) }

  function InsertKey(keys: seq<Text>, k: Text): (r: seq<Text>)
    ensures forall x :: x in r <==> x in keys || x == k
  {
    if keys == [] then [k]
    else if Less(k, keys[0]) then [k] + keys
    else [keys[0]] + InsertKey(keys[1..], k)
  }

  function SortKeys(keys: seq<Text>): (r: seq<Text>)
    ensures forall x :: x in r <==> x in keys
  {
    if keys == [] then [] else InsertKey(SortKeys(keys[1..]), keys[0])
  }

  lemma {:induction false} InsertInOrder(keys: seq<Text>, k: Text)
    requires InOrder(keys) && k !in keys
    ensures InOrder(InsertKey(keys, k))
  {
    if keys != [] {
      LessTotal(k, keys[0]);
      if Less(k, keys[0]) {
        forall i | 0 <= i < |keys| ensures Less(k, keys[i]) {
          if i > 0 { LessTransitive(k, keys[0], keys[i]); }
        }
      } else {
        assert InOrder(keys[1..]) && k !in keys[1..];
        InsertInOrder(keys[1..], k);
        var rest := InsertKey(keys[1..], k);
        forall j | 0 <= j < |rest| ensures Less(keys[0], rest[j]) {
          assert rest[j] in rest;
          if rest[j] in keys[1..] {
            var i :| 0 <= i < |keys[1..]| && keys[1..][i] == rest[j];
            assert keys[i + 1] == rest[j];
          }
        }
      }
    }
  }

  predicate Distinct(keys: seq<Text>) { forall i, j :: 0 <= i < j < |keys| ==> keys[i] != keys[j] }

  lemma {:induction false} SortInOrder(keys: seq<Text>)
    requires Distinct(keys)
    ensures InOrder(SortKeys(keys))
  {
    if keys != [] {
      SortInOrder(keys[1..]);
      assert keys[0] !in keys[1..];
      InsertInOrder(SortKeys(keys[1..]), keys[0]);
    }
  }

  /** A set of keys has one ordered listing. */
  lemma {:induction false} OrderIsDetermined(a: seq<Text>, b: seq<Text>)
    requires InOrder(a) && InOrder(b) && forall x :: x in a <==> x in b
    ensures a == b
  {
    if a == [] {
      if b != [] { HasMember(b); }
    } else {
      assert a[0] in b && b[0] in a;
      FirstIsLeast(a, b[0]);
      FirstIsLeast(b, a[0]);
      LessTotal(a[0], b[0]);
      forall x ensures x in a[1..] <==> x in b[1..] {
        TailMember(a, x);
        TailMember(b, x);
      }
      OrderIsDetermined(a[1..], b[1..]);
    }
  }

  lemma FirstIsLeast(keys: seq<Text>, x: Text)
    requires InOrder(keys) && x in keys
    ensures x == keys[0] || Less(keys[0], x)
  {
  }

  lemma TailMember(keys: seq<Text>, x: Text)
    requires InOrder(keys) && keys != []
    ensures x in keys[1..] <==> x in keys && x != keys[0]
  {
    LessIrreflexive(keys[0]);
    if x in keys[1..] {
      var i :| 0 <= i < |keys[1..]| && keys[1..][i] == x;
      assert Less(keys[0], keys[i + 1]);
    }
  }

  // ---------------------------------------------------------------------------
  // Joining and parsing
  // ---------------------------------------------------------------------------

  function JoinPairs(pairs: seq<(Text, Text)>): Text {
    if pairs == [] then []
    else if |pairs| == 1 then pairs[0].0 + [EQUALS] + pairs[0].1
    else pairs[0].0 + [EQUALS] + pairs[0].1 + [AMPERSAND] + JoinPairs(pairs[1..])
  }

  function IndexOf(t: Text, u: CodeUnit): (i: nat)
    ensures i <= |t| && (forall k :: 0 <= k < i ==> t[k] != u) && (i < |t| ==> t[i] == u)
  {
    if t == [] || t[0] == u then 0 else 1 + IndexOf(t[1..], u)
  }

  function ParsePair(t: Text): (Text, Text) {
    var i := IndexOf(t, EQUALS);
    (t[..i], if i < |t| then t[i + 1..] else [])
  }

  function ParsePairs(t: Text): seq<(Text, Text)>
    decreases |t|
  {
    if t == [] then []
    else
      var i := IndexOf(t, AMPERSAND);
      [ParsePair(t[..i])] + if i < |t| then ParsePairs(t[i + 1..]) else []
  }

  lemma IndexIs(t: Text, u: CodeUnit, i: nat)
    requires i <= |t| && (forall k :: 0 <= k < i ==> t[k] != u) && (i < |t| ==> t[i] == u)
    ensures IndexOf(t, u) == i
  {
  }

  lemma ParseOne(k: Text, v: Text)
    requires IsClean(k) && IsClean(v)
    ensures ParsePair(k + [EQUALS] + v) == (k, v)
    ensures forall j :: 0 <= j < |k + [EQUALS] + v| ==> (k + [EQUALS] + v)[j] != AMPERSAND
  {
    var t := k + [EQUALS] + v;
    IndexIs(t, EQUALS, |k|);
    assert t[..|k|] == k && t[|k| + 1..] == v;
  }

  lemma ParseNext(one: Text, rest: Text)
    requires forall j :: 0 <= j < |one| ==> one[j] != AMPERSAND
    ensures ParsePairs(one + [AMPERSAND] + rest) == [ParsePair(one)] + ParsePairs(rest)
  {
    var t := one + [AMPERSAND] + rest;
    IndexIs(t, AMPERSAND, |one|);
    assert t[..|one|] == one && t[|one| + 1..] == rest;
  }

  lemma {:induction false} ParseBack(pairs: seq<(Text, Text)>)
    requires forall p :: p in pairs ==> IsClean(p.0) && IsClean(p.1)
    ensures ParsePairs(JoinPairs(pairs)) == pairs
  {
    if pairs != [] {
      var one := pairs[0].0 + [EQUALS] + pairs[0].1;
      ParseOne(pairs[0].0, pairs[0].1);
      if |pairs| == 1 {
        IndexIs(one, AMPERSAND, |one|);
        assert one[..|one|] == one;
        assert pairs == [pairs[0]];
      } else {
        ParseNext(one, JoinPairs(pairs[1..]));
        ParseBack(pairs[1..]);
        assert pairs == [pairs[0]] + pairs[1..];
      }
    }
  }

  // ---------------------------------------------------------------------------
  // The base string
  // ---------------------------------------------------------------------------

  /** A parameter's value once stringified, or absent (undefined, null). */
  datatype Param = Param(key: Text, value: Option<Text>)

  const SIGN: Text := [0x73, 0x69, 0x67, 0x6E]

  /** An object has each key once. */
  predicate IsObject(params: seq<Param>) { forall i, j :: 0 <= i < j < |params| ==> params[i].key != params[j].key }

  predicate IsSigned(p: Param) { p.key != SIGN && p.value.Some? }

  /** What is signed: every present value except that of `sign`. */
  function Effective(params: seq<Param>): map<Text, Text> {
    if params == [] then map[]
    else if IsSigned(params[0]) then Effective(params[1..])[params[0].key := params[0].value.value]
    else Effective(params[1..])
  }

  /** Keys in insertion order, filtered. */
  function SignedKeys(params: seq<Param>): (keys: seq<Text>)
    ensures forall k :: k in keys <==> k in Effective(params)
  {
    if params == [] then []
    else if IsSigned(params[0]) then [params[0].key] + SignedKeys(params[1..])
    else SignedKeys(params[1..])
  }

  lemma {:induction false} KeysComeFromParams(params: seq<Param>, k: Text)
    requires k in Effective(params)
    ensures exists i :: 0 <= i < |params| && params[i].key == k
  {
    if !(IsSigned(params[0]) && params[0].key == k) {
      KeysComeFromParams(params[1..], k);
      var i :| 0 <= i < |params[1..]| && params[1..][i].key == k;
      assert params[i + 1].key == k;
    }
  }

  lemma {:induction false} SignedKeysDistinct(params: seq<Param>)
    requires IsObject(params)
    ensures Distinct(SignedKeys(params))
  {
    if params != [] {
      SignedKeysDistinct(params[1..]);
      if IsSigned(params[0]) {
        var k, rest := params[0].key, SignedKeys(params[1..]);
        forall j | 0 <= j < |rest| ensures rest[j] != k {
          assert rest[j] in rest;
          KeysComeFromParams(params[1..], rest[j]);
        }
      }
    }
  }

  /** Encoded pairs in key order; nothing when some string cannot be encoded. */
  function EncodePairs(keys: seq<Text>, values: map<Text, Text>): Option<seq<(Text, Text)>>
    requires forall k :: k in keys ==> k in values
  {
    if keys == [] then Some([])
    else
      assert keys[0] in keys;
      var k, v, rest := Rfc3986(keys[0]), Rfc3986(values[keys[0]]), EncodePairs(keys[1..], values);
      if k.None? || v.None? || rest.None? then None else Some([(k.value, v.value)] + rest.value)
  }

  /** The canonical string; none when a lone surrogate makes the encoding throw. */
  function BuildSignBase(params: seq<Param>): Option<Text> {
    var pairs := EncodePairs(SortKeys(SignedKeys(params)), Effective(params));
    if pairs.None? then None else Some(JoinPairs(pairs.value))
  }

  /** Undo join and encoding. */
  function DecodePairs(pairs: seq<(Text, Text)>): map<Text, Text> {
    if pairs == [] then map[]
    else
      var k, v, rest := Decoded(pairs[0].0), Decoded(pairs[0].1), DecodePairs(pairs[1..]);
      if k.None? || v.None? then rest else rest[k.value := v.value]
  }

  function DecodeBase(base: Text): map<Text, Text> { DecodePairs(ParsePairs(base)) }

  /** `values` restricted to the listed keys. */
  function Only(keys: seq<Text>, values: map<Text, Text>): map<Text, Text>
    requires forall k :: k in keys ==> k in values
  {
    map k | k in keys :: values[k]
  }

  lemma OnlyNext(keys: seq<Text>, values: map<Text, Text>)
    requires keys != [] && forall k :: k in keys ==> k in values
    ensures keys[0] in keys && Only(keys, values) == Only(keys[1..], values)[keys[0] := values[keys[0]]]
  {
  }

  lemma {:induction false} PairsBack(keys: seq<Text>, values: map<Text, Text>)
    requires forall k :: k in keys ==> k in values
    requires EncodePairs(keys, values).Some?
    ensures var pairs := EncodePairs(keys, values).value;
      && (forall p :: p in pairs ==> IsClean(p.0) && IsClean(p.1))
      && DecodePairs(pairs) == Only(keys, values)
  {
    if keys != [] {
      assert keys[0] in keys;
      PairsBack(keys[1..], values);
      EncodingInverts(keys[0]);
      EncodingInverts(values[keys[0]]);
      var pairs, rest := EncodePairs(keys, values).value, EncodePairs(keys[1..], values).value;
      assert pairs == [(Rfc3986(keys[0]).value, Rfc3986(values[keys[0]]).value)] + rest;
      assert pairs[1..] == rest;
      OnlyNext(keys, values);
    }
  }

  /** Main result: the decoder recovers the signed parameters. */
  lemma BaseDecodes(params: seq<Param>)
    requires BuildSignBase(params).Some?
    ensures DecodeBase(BuildSignBase(params).value) == Effective(params)
  {
    var keys, values := SortKeys(SignedKeys(params)), Effective(params);
    PairsBack(keys, values);
    ParseBack(EncodePairs(keys, values).value);
    assert Only(keys, values) == values;
  }

  /** A text in ASCII. */
  function Ascii(s: string): Text { seq(|s|, i requires 0 <= i < |s| => s[i] as int % 0x80) }

  /** Percent-encoding of the UTF-8 bytes, of a text that has them. */
  function Encoded(s: Text): Text { if CodePoints(s).Some? then Percent(Utf8All(CodePoints(s).value)) else [] }

  lemma RfcIsEncoded(s: Text)
    ensures Rfc3986(s) == if CodePoints(s).Some? then Some(Encoded(s)) else None
  {
    if CodePoints(s).Some? { PatchedIsPercent(Utf8All(CodePoints(s).value)); }
  }

  predicate Encodable(keys: seq<Text>, values: map<Text, Text>) {
    forall k :: k in keys ==> k in values && CodePoints(k).Some? && CodePoints(values[k]).Some?
  }

  /** k=v pairs joined with &. */
  function Spelled(keys: seq<Text>, values: map<Text, Text>): Text
    requires forall k :: k in keys ==> k in values
  {
    if keys == [] then []
    else
      assert keys[0] in keys;
      var one := Encoded(keys[0]) + ['=' as int] + Encoded(values[keys[0]]);
      if |keys| == 1 then one else one + ['&' as int] + Spelled(keys[1..], values)
  }

  /** Every present value except that of `sign`. */
  predicate Signs(params: seq<Param>, k: Text, v: Text) {
    k != Ascii("sign") && exists p :: p in params && p == Param(k, Some(v))
  }

  /** The keys signed, each once, in dictionary order: where two first differ the earlier one has the smaller unit or ends. */
  ghost predicate Dictionary(keys: seq<Text>) {
    forall i, j :: 0 <= i < j < |keys| ==> Precedes(keys[i], keys[j])
  }

  lemma {:induction false} JoinIsSpelled(keys: seq<Text>, values: map<Text, Text>)
    requires Encodable(keys, values)
    ensures EncodePairs(keys, values).Some? && |EncodePairs(keys, values).value| == |keys|
    ensures JoinPairs(EncodePairs(keys, values).value) == Spelled(keys, values)
  {
    if keys != [] {
      assert keys[0] in keys;
      JoinIsSpelled(keys[1..], values);
      RfcIsEncoded(keys[0]);
      RfcIsEncoded(values[keys[0]]);
      JoinNext(Encoded(keys[0]), Encoded(values[keys[0]]), EncodePairs(keys[1..], values).value);
    }
  }

  lemma JoinNext(k: Text, v: Text, rest: seq<(Text, Text)>)
    ensures JoinPairs([(k, v)] + rest)
            == if rest == [] then k + ['=' as int] + v else k + ['=' as int] + v + ['&' as int] + JoinPairs(rest)
  {
    assert ([(k, v)] + rest)[1..] == rest;
  }

  lemma SignedAre(params: seq<Param>, k: Text, v: Text)
    requires IsObject(params)
    ensures k in Effective(params) && Effective(params)[k] == v <==> Signs(params, k, v)
  {
    EffectiveMeans(params, k);
    assert SIGN == Ascii("sign");
    if k in Effective(params) {
      var p :| p in params && p.key == k && IsSigned(p);
      assert p == Param(k, Some(p.value.value));
    }
  }

  /**
   * Main result: the string is spelled out as the gateway documents it: the signed keys in
   * dictionary order, k=v pairs joined with &, every byte outside the unreserved set of
   * RFC 3986 as % and two upper-case digits.
   */
  lemma BaseIsSpelled(params: seq<Param>) returns (keys: seq<Text>)
    requires IsObject(params) && BuildSignBase(params).Some?
    ensures Dictionary(keys) && (forall k :: k in keys <==> k in Effective(params)) && Encodable(keys, Effective(params))
    ensures BuildSignBase(params) == Some(Spelled(keys, Effective(params)))
  {
    keys := SortKeys(SignedKeys(params));
    SignedKeysDistinct(params);
    SortInOrder(SignedKeys(params));
    InDictionary(keys);
    BaseExistsIff(params);
    JoinIsSpelled(keys, Effective(params));
  }

  lemma InDictionary(keys: seq<Text>)
    requires InOrder(keys)
    ensures Dictionary(keys)
  {
    forall i, j | 0 <= i < j < |keys| ensures Precedes(keys[i], keys[j]) { LessMeans(keys[i], keys[j]); }
  }

  /**
   * Main result: two objects have the same base string exactly when they sign the same
   * parameters, whatever the order their keys were inserted in.
   */
  lemma BaseIsInjective(a: seq<Param>, b: seq<Param>)
    requires IsObject(a) && IsObject(b) && BuildSignBase(a).Some?
    ensures BuildSignBase(a) == BuildSignBase(b) <==> Effective(a) == Effective(b)
  {
    if BuildSignBase(a) == BuildSignBase(b) {
      BaseDecodes(a);
      BaseDecodes(b);
    }
    if Effective(a) == Effective(b) { SameKeysSameOrder(a, b); }
  }

  lemma SameKeysSameOrder(a: seq<Param>, b: seq<Param>)
    requires IsObject(a) && IsObject(b) && Effective(a) == Effective(b)
    ensures SortKeys(SignedKeys(a)) == SortKeys(SignedKeys(b))
  {
    SignedKeysDistinct(a);
    SignedKeysDistinct(b);
    SortInOrder(SignedKeys(a));
    SortInOrder(SignedKeys(b));
    OrderIsDetermined(SortKeys(SignedKeys(a)), SortKeys(SignedKeys(b)));
  }

  /** A base string exists exactly when no signed key or value has a lone surrogate. */
  lemma BaseExistsIff(params: seq<Param>)
    ensures BuildSignBase(params).Some? <==>
            forall k :: k in Effective(params) ==> CodePoints(k).Some? && CodePoints(Effective(params)[k]).Some?
  {
    PairsExistIff(SortKeys(SignedKeys(params)), Effective(params));
  }

  lemma {:induction false} PairsExistIff(keys: seq<Text>, values: map<Text, Text>)
    requires forall k :: k in keys ==> k in values
    ensures EncodePairs(keys, values).Some? <==> forall k :: k in keys ==> CodePoints(k).Some? && CodePoints(values[k]).Some?
  {
    if keys != [] {
      assert keys[0] in keys;
      PairsExistIff(keys[1..], values);
      assert forall k :: k in keys <==> k == keys[0] || k in keys[1..];
    }
  }

  lemma {:induction false} SignIsIgnored(params: seq<Param>, signature: Text)
    ensures Effective(params + [Param(SIGN, Some(signature))]) == Effective(params)
  {
    var all := params + [Param(SIGN, Some(signature))];
    if params == [] {
      assert all[1..] == [];
    } else {
      assert all[1..] == params[1..] + [Param(SIGN, Some(signature))];
      SignIsIgnored(params[1..], signature);
    }
  }

  /** The receiver of a signed request rebuilds the string its sender signed. */
  lemma ReceiverRebuildsBase(params: seq<Param>, signature: Text, received: seq<Param>)
    requires IsObject(params) && IsObject(received) && BuildSignBase(params).Some?
    requires forall i :: 0 <= i < |params| ==> params[i].key != SIGN
    requires multiset(received) == multiset(params + [Param(SIGN, Some(signature))])
    ensures BuildSignBase(received) == BuildSignBase(params)
  {
    var sent := params + [Param(SIGN, Some(signature))];
    SignIsIgnored(params, signature);
    assert forall p :: p in received <==> p in multiset(received);
    assert forall p :: p in sent <==> p in multiset(sent);
    SameMembersSameValues(received, sent);
    BaseIsInjective(params, received);
  }

  lemma {:induction false} EffectiveMeans(params: seq<Param>, k: Text)
    requires IsObject(params)
    ensures k in Effective(params) <==> exists p :: p in params && p.key == k && IsSigned(p)
    ensures forall p :: p in params && p.key == k && IsSigned(p) ==> Effective(params)[k] == p.value.value
  {
    if params != [] {
      EffectiveMeans(params[1..], k);
      assert forall p :: p in params <==> p == params[0] || p in params[1..];
      if params[0].key == k {
        forall p | p in params[1..] ensures p.key != k {
          var i :| 0 <= i < |params[1..]| && params[1..][i] == p;
          assert params[i + 1] == p;
        }
      }
    }
  }

  lemma SameMembersSameValues(a: seq<Param>, b: seq<Param>)
    requires IsObject(a) && IsObject(b) && forall p :: p in a <==> p in b
    ensures Effective(a) == Effective(b)
  {
    forall k ensures k in Effective(a) <==> k in Effective(b)
             ensures k in Effective(a) ==> Effective(a)[k] == Effective(b)[k]
    {
      EffectiveMeans(a, k);
      EffectiveMeans(b, k);
    }
  }
}
