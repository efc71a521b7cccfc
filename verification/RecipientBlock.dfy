/**
 * Sending rules of a sender domain: glob patterns over recipient addresses, allow rules
 * before block rules. Characters are UTF-16 code units; case is folded for ASCII letters.
 */
module RecipientBlock {

  datatype Mode = Allow | Block
  datatype Rule = Rule(mode: Mode, pattern: string)

  /** What trimming removes: ASCII blanks, the Unicode space separators, line ends and the byte order mark. */
  predicate IsSpace(c: char) {
    || c in " \t\n\r"
    || c as int in {0x0B, 0x0C, 0xA0, 0x1680, 0x2028, 0x2029, 0x202F, 0x205F, 0x3000, 0xFEFF}
    || 0x2000 <= c as int <= 0x200A
  }

  function TrimLeft(s: string): string { if s != [] && IsSpace(s[0]) then TrimLeft(s[1..]) else s }

  function TrimRight(s: string): string {
    if s != [] && IsSpace(s[|s| - 1]) then TrimRight(s[..|s| - 1]) else s
  }

  function LowerChar(c: char): char {
    if 'A' <= c <= 'Z' then (c as int + 32) as char else c
  }

  function Lower(s: string): string { seq(|s|, i requires 0 <= i < |s| => LowerChar(s[i])) }

  function Normalise(s: string): string { Lower(TrimRight(TrimLeft(s))) }

  /** The regular expression `.` does not cross a line. */
  predicate EndsLine(c: char) { c in "\n\r" || c as int in {0x2028, 0x2029} }

  /** Anchored match of a glob whose only special character is `*`. */
  predicate Glob(pattern: string, text: string)
    decreases |pattern| + |text|
  {
    if pattern == [] then text == []
    else if pattern[0] == '*' then
      Glob(pattern[1..], text) || (text != [] && !EndsLine(text[0]) && Glob(pattern, text[1..]))
    else text != [] && text[0] == pattern[0] && Glob(pattern[1..], text[1..])
  }

  /** `split('@')[1] ?? ''`: between the first and the second `@`. */
  function AfterAt(s: string): string {
    if s == [] then [] else if s[0] == '@' then BeforeAt(s[1..]) else AfterAt(s[1..])
  }

  function BeforeAt(s: string): string {
    if s == [] || s[0] == '@' then [] else [s[0]] + BeforeAt(s[1..])
  }

  predicate Matches(email: string, pattern: string) {
    var e := Normalise(email);
    var p := Normalise(pattern);
    e != [] && p != [] && Glob(p, if '@' in p then e else AfterAt(e))
  }

  predicate AnyMatch(email: string, rules: seq<Rule>, mode: Mode) {
    exists k :: 0 <= k < |rules| && rules[k].mode == mode && Matches(email, rules[k].pattern)
  }

  predicate HasAllow(rules: seq<Rule>) {
    exists k :: 0 <= k < |rules| && rules[k].mode == Allow
  }

  predicate IsBlocked(email: string, rules: seq<Rule>) {
    if AnyMatch(email, rules, Allow) then false
    else if AnyMatch(email, rules, Block) then true
    else HasAllow(rules)
  }

  // ---------------------------------------------------------------------------
  // What patterns and rules mean
  // ---------------------------------------------------------------------------

  predicate OneLine(s: string) { forall i :: 0 <= i < |s| ==> !EndsLine(s[i]) }

  /** A star stands for any text on one line: the split may fall anywhere. */
  lemma {:induction false} StarSplits(rest: string, text: string)
    ensures Glob("*" + rest, text) <==>
            exists k :: 0 <= k <= |text| && OneLine(text[..k]) && Glob(rest, text[k..])
    decreases |text|
  {
    var p := "*" + rest;
    assert p[1..] == rest && text[0..] == text;
    if text != [] && !EndsLine(text[0]) {
      StarSplits(rest, text[1..]);
      if Glob(p, text[1..]) {
        var k :| 0 <= k <= |text[1..]| && OneLine(text[1..][..k]) && Glob(rest, text[1..][k..]);
        assert text[1..][k..] == text[k + 1..] && text[..k + 1] == [text[0]] + text[1..][..k];
        assert OneLine(text[..k + 1]) && Glob(rest, text[k + 1..]);
      }
      if k :| 0 < k <= |text| && OneLine(text[..k]) && Glob(rest, text[k..]) {
        assert text[1..][k - 1..] == text[k..];
        var w := text[1..][..k - 1];
        forall i | 0 <= i < |w| ensures !EndsLine(w[i]) { assert !EndsLine(text[..k][i + 1]); }
      }
    } else {
      forall k | 0 < k <= |text| ensures !OneLine(text[..k]) {
        assert EndsLine(text[..k][0]);
      }
      if Glob(rest, text) { assert OneLine(text[..0]) && Glob(rest, text[0..]); }
    }
  }

  /** Without a star a pattern matches itself only, and literal prefixes are peeled off. */
  lemma {:induction false} LiteralPrefix(a: string, rest: string, text: string)
    requires '*' !in a
    ensures Glob(a + rest, text) <==> a <= text && Glob(rest, text[|a|..])
    decreases |a|
  {
    if a == [] {
      assert a + rest == rest && text[0..] == text;
    } else {
      assert (a + rest)[1..] == a[1..] + rest;
      if text != [] {
        LiteralPrefix(a[1..], rest, text[1..]);
        if |a| <= |text| { assert text[|a|..] == text[1..][|a| - 1..]; }
        assert text == [text[0]] + text[1..] && a == [a[0]] + a[1..];
      }
    }
  }

  lemma LiteralOnly(b: string, text: string)
    requires '*' !in b
    ensures Glob(b, text) <==> text == b
  {
  }

  /** A text that is anything on one line followed by `b`. */
  predicate EndsWithOnLine(b: string, text: string) {
    |b| <= |text| && text[|text| - |b|..] == b && OneLine(text[..|text| - |b|])
  }

  lemma StarSuffix(b: string, text: string)
    requires '*' !in b
    ensures Glob("*" + b, text) <==> EndsWithOnLine(b, text)
  {
    StarSplits(b, text);
    forall k | 0 <= k <= |text| ensures Glob(b, text[k..]) <==> text[k..] == b {
      LiteralOnly(b, text[k..]);
    }
    if EndsWithOnLine(b, text) {
      var k := |text| - |b|;
      assert OneLine(text[..k]) && Glob(b, text[k..]);
    }
  }

  /** `prefix*suffix`, the usual wildcard rule: the two ends may not overlap. */
  lemma PrefixStarSuffix(a: string, b: string, text: string)
    requires '*' !in a && '*' !in b
    ensures Glob(a + ("*" + b), text) <==> a <= text && EndsWithOnLine(b, text[|a|..])
  {
    LiteralPrefix(a, "*" + b, text);
    if a <= text { StarSuffix(b, text[|a|..]); }
  }

  // ---------------------------------------------------------------------------
  // Addresses and patterns as they are written
  // ---------------------------------------------------------------------------

  predicate Blank(s: string) { forall i :: 0 <= i < |s| ==> IsSpace(s[i]) }

  /** Neither end is a blank. */
  predicate Tight(s: string) { s != [] && !IsSpace(s[0]) && !IsSpace(s[|s| - 1]) }

  lemma {:induction false} TrimLeftSkips(u: string, s: string)
    requires Blank(u) && s != [] && !IsSpace(s[0])
    ensures TrimLeft(u + s) == s
  {
    if u == [] {
      assert u + s == s;
    } else {
      assert (u + s)[1..] == u[1..] + s;
      TrimLeftSkips(u[1..], s);
    }
  }

  lemma {:induction false} TrimRightSkips(s: string, v: string)
    requires Blank(v) && s != [] && !IsSpace(s[|s| - 1])
    ensures TrimRight(s + v) == s
  {
    if v == [] {
      assert s + v == s;
    } else {
      assert (s + v)[..|s + v| - 1] == s + v[..|v| - 1];
      TrimRightSkips(s, v[..|v| - 1]);
    }
  }

  /** Blanks around a text do not matter, nor does the case of its letters. */
  lemma NormalForm(u: string, s: string, v: string)
    requires Blank(u) && Blank(v) && Tight(s)
    ensures |Normalise(u + s + v)| == |s|
    ensures forall i :: 0 <= i < |s| ==>
              Normalise(u + s + v)[i] == if 'A' <= s[i] <= 'Z' then "abcdefghijklmnopqrstuvwxyz"[s[i] as int - 'A' as int] else s[i]
  {
    assert u + s + v == u + (s + v);
    TrimLeftSkips(u, s + v);
    TrimRightSkips(s, v);
  }

  lemma {:induction false} DomainOf(local: string, domain: string)
    requires '@' !in local && '@' !in domain
    ensures AfterAt(local + "@" + domain) == domain
  {
    var e := local + "@" + domain;
    if local == [] {
      assert e[1..] == domain;
      NoMoreAt(domain);
    } else {
      assert e[1..] == local[1..] + "@" + domain;
      DomainOf(local[1..], domain);
    }
  }

  lemma {:induction false} NoMoreAt(s: string)
    requires '@' !in s
    ensures BeforeAt(s) == s
  {
    if s != [] { NoMoreAt(s[1..]); }
  }

  lemma LowerKeepsAt(s: string)
    ensures '@' in Lower(s) <==> '@' in s
  {
    if '@' in Lower(s) {
      var i :| 0 <= i < |s| && Lower(s)[i] == '@';
      assert s[i] == '@';
    }
    if '@' in s {
      var i :| 0 <= i < |s| && s[i] == '@';
      assert Lower(s)[i] == '@';
    }
  }

  /**
   * A pattern with an @ is about the whole address, one without about its domain; blanks
   * around either and the case of letters do not matter.
   */
  lemma PatternMeans(u: string, local: string, domain: string, v: string, x: string, pattern: string, y: string)
    requires Blank(u) && Blank(v) && Blank(x) && Blank(y) && Tight(pattern)
    requires '@' !in local && '@' !in domain && Tight(local + "@" + domain)
    ensures Matches(u + (local + "@" + domain) + v, x + pattern + y) <==>
            Glob(Lower(pattern), if '@' in pattern then Lower(local + "@" + domain) else Lower(domain))
  {
    var e := local + "@" + domain;
    NormalForm(u, e, v);
    NormalForm(x, pattern, y);
    assert Normalise(u + e + v) == Lower(e) && Normalise(x + pattern + y) == Lower(pattern);
    LowerKeepsAt(pattern);
    LowerKeepsAt(local);
    LowerKeepsAt(domain);
    assert Lower(e) == Lower(local) + "@" + Lower(domain);
    DomainOf(Lower(local), Lower(domain));
  }

  lemma MatchAdded(email: string, rules: seq<Rule>, r: Rule, mode: Mode)
    ensures AnyMatch(email, rules + [r], mode) <==> AnyMatch(email, rules, mode) || (r.mode == mode && Matches(email, r.pattern))
    ensures HasAllow(rules + [r]) <==> HasAllow(rules) || r.mode == Allow
  {
    var more := rules + [r];
    assert more[|rules|] == r;
    assert forall k :: 0 <= k < |rules| ==> more[k] == rules[k];
  }

  /**
   * What one more rule does. A matching allow rule lets the address through whatever the
   * others say; any other allow rule shuts out the addresses no allow rule matches. A
   * matching block rule blocks unless some allow rule matches; any other changes nothing.
   */
  lemma RuleAdded(email: string, rules: seq<Rule>, r: Rule)
    ensures IsBlocked(email, rules + [r]) <==>
            match (r.mode, Matches(email, r.pattern))
            case (Allow, true) => false
            case (Allow, false) => !AnyMatch(email, rules, Allow)
            case (Block, true) => !AnyMatch(email, rules, Allow)
            case (Block, false) => IsBlocked(email, rules)
  {
    MatchAdded(email, rules, r, Allow);
    MatchAdded(email, rules, r, Block);
  }

  /** The verdict does not depend on the order of the rules, nor on repeated ones. */
  lemma RuleOrderIrrelevant(email: string, a: seq<Rule>, b: seq<Rule>)
    requires forall r :: r in a <==> r in b
    ensures IsBlocked(email, a) <==> IsBlocked(email, b)
  {
    SameMatches(email, a, b);
    SameMatches(email, b, a);
  }

  lemma SameMatches(email: string, a: seq<Rule>, b: seq<Rule>)
    requires forall r :: r in a ==> r in b
    ensures AnyMatch(email, a, Allow) ==> AnyMatch(email, b, Allow)
    ensures AnyMatch(email, a, Block) ==> AnyMatch(email, b, Block)
    ensures HasAllow(a) ==> HasAllow(b)
  {
    forall k | 0 <= k < |a| ensures exists j :: 0 <= j < |b| && b[j] == a[k] {
      assert a[k] in a;
    }
  }
}
