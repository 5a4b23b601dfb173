/**
 * String helpers used by both the booking extractor and the flight watch:
 * Python's `str.strip`, `str.lstrip`, `str.replace`, substring tests and
 * ASCII upper-casing, plus the three small helpers of app.py that are built
 * on them: `chunk_text`, `normalize_waid` and `build_flight_links`.
 */
module Text {
  import opened Wrappers

  // ---------------------------------------------------------------------
  // Character classes and primitive string operations
  // ---------------------------------------------------------------------

  /** Python's `str.isspace` on one character (the characters `str.strip()` removes). */
  predicate IsSpace(c: char) {
    ('\U{9}' <= c <= '\U{D}') || ('\U{1C}' <= c <= '\U{20}')
    || c == '\U{85}' || c == '\U{A0}' || c == '\U{1680}'
    || ('\U{2000}' <= c <= '\U{200A}')
    || c == '\U{2028}' || c == '\U{2029}' || c == '\U{202F}' || c == '\U{205F}' || c == '\U{3000}'
  }

  predicate IsDigit(c: char) { '0' <= c <= '9' }

  predicate IsUpperLetter(c: char) { 'A' <= c <= 'Z' }

  /** `s.lstrip()`: drop leading white space. */
  function LStripSpace(s: string): (r: string)
    ensures |r| <= |s| && r == s[|s| - |r|..]
    ensures r == [] || !IsSpace(r[0])
  {
    if |s| > 0 && IsSpace(s[0]) then LStripSpace(s[1..]) else s
  }

  /** `s.rstrip()`: drop trailing white space. */
  function RStripSpace(s: string): (r: string)
    ensures |r| <= |s| && r == s[..|r|]
    ensures r == [] || !IsSpace(r[|r| - 1])
  {
    if |s| > 0 && IsSpace(s[|s| - 1]) then RStripSpace(s[..|s| - 1]) else s
  }

  /** `s.strip()`. */
  function Strip(s: string): string {
    RStripSpace(LStripSpace(s))
  }

  /** Stripping keeps a leading piece that starts and ends with non-space characters. */
  lemma StripKeepsHead(a: string, b: string)
    requires a != [] && !IsSpace(a[0]) && !IsSpace(a[|a| - 1])
    ensures a <= Strip(a + b)
  {
    assert LStripSpace(a + b) == a + b;
    RStripKeepsHead(a, b);
  }

  lemma {:induction false} RStripKeepsHead(a: string, b: string)
    requires a != [] && !IsSpace(a[|a| - 1])
    ensures a <= RStripSpace(a + b)
    decreases |b|
  {
    var s := a + b;
    if b == [] {
      assert s == a;
    } else if IsSpace(s[|s| - 1]) {
      assert s[..|s| - 1] == a + b[..|b| - 1];
      RStripKeepsHead(a, b[..|b| - 1]);
    }
  }

  /** `s.lstrip(c)` for a single character `c`. */
  function LStripChar(s: string, c: char): (r: string)
    ensures |r| <= |s| && r == s[|s| - |r|..]
    ensures r == [] || r[0] != c
  {
    if |s| > 0 && s[0] == c then LStripChar(s[1..], c) else s
  }

  /** Python's `p in t` on strings: `p` occurs in `t` as a contiguous piece. */
  predicate Contains(t: string, p: string) {
    p <= t || (|t| > 0 && Contains(t[1..], p))
  }

  lemma {:induction false} ContainsAt(t: string, p: string, k: nat)
    requires k + |p| <= |t| && t[k..k + |p|] == p
    ensures Contains(t, p)
  {
    if k > 0 {
      assert t[1..][k - 1..k - 1 + |p|] == p;
      ContainsAt(t[1..], p, k - 1);
    }
  }

  lemma {:induction false} ContainsConcat(a: string, p: string, b: string)
    ensures Contains(a + p + b, p)
  {
    ContainsAt(a + p + b, p, |a|);
  }

  /** `s.replace(pat, "")`: remove every non-overlapping occurrence of `pat`, scanning left to right. */
  function RemoveAll(s: string, pat: string): (r: string)
    requires pat != []
    ensures |r| <= |s|
    decreases |s|
  {
    if |s| == 0 then s
    else if pat <= s then RemoveAll(s[|pat|..], pat)
    else [s[0]] + RemoveAll(s[1..], pat)
  }

  lemma {:induction false} RemoveAllAbsent(s: string, pat: string)
    requires pat != [] && !Contains(s, pat)
    ensures RemoveAll(s, pat) == s
    decreases |s|
  {
    if |s| > 0 {
      RemoveAllAbsent(s[1..], pat);
      assert [s[0]] + s[1..] == s;
    }
  }

  /** ASCII part of `str.upper()`. */
  function UpperChar(c: char): char {
    if 'a' <= c <= 'z' then (c as int - 32) as char else c
  }

  function Upper(s: string): (r: string)
    ensures |r| == |s| && forall i :: 0 <= i < |s| ==> r[i] == UpperChar(s[i])
  {
    if |s| == 0 then [] else [UpperChar(s[0])] + Upper(s[1..])
  }

  /** Concatenation of a list of strings (`"".join(parts)`). */
  function Join(parts: seq<string>): string {
    if |parts| == 0 then [] else parts[0] + Join(parts[1..])
  }

  /** Python truthiness of an optional string: present and non-empty. */
  predicate Truthy(o: Option<string>) {
    o.Some? && o.value != ""
  }

  /** `x or ''` for an optional string. */
  function OrEmpty(o: Option<string>): string {
    o.GetOr("")
  }

  // ---------------------------------------------------------------------
  // Decimal rendering, `f"{n:02d}"` and `%Y`
  // ---------------------------------------------------------------------

  function DigitChar(d: nat): char
    requires d < 10
  {
    ('0' as int + d) as char
  }

  function DigitValue(c: char): nat
    requires IsDigit(c)
  {
    c as int - '0' as int
  }

  /** `n` written with exactly `width` decimal digits, zero-padded on the left. */
  function Pad(n: nat, width: nat): (r: string)
    ensures |r| == width && forall i :: 0 <= i < width ==> IsDigit(r[i])
  {
    if width == 0 then [] else Pad(n / 10, width - 1) + [DigitChar(n % 10)]
  }

  /** The value of a string of decimal digits. */
  function DecimalValue(s: string): nat
    requires forall i :: 0 <= i < |s| ==> IsDigit(s[i])
  {
    if |s| == 0 then 0 else 10 * DecimalValue(s[..|s| - 1]) + DigitValue(s[|s| - 1])
  }

  function Pow10(k: nat): (r: nat)
    ensures r >= 1
  {
    if k == 0 then 1 else 10 * Pow10(k - 1)
  }

  /** Reading a padded number back gives the number, when it fits the width. */
  lemma {:induction false} PadRoundTrip(n: nat, width: nat)
    requires n < Pow10(width)
    ensures DecimalValue(Pad(n, width)) == n
  {
    if width > 0 {
      var r := Pad(n, width);
      assert r[..|r| - 1] == Pad(n / 10, width - 1);
      PadRoundTrip(n / 10, width - 1);
    }
  }

  // ---------------------------------------------------------------------
  // chunk_text (app.py:235-237)
  // ---------------------------------------------------------------------

  /** The pieces `s[0:n], s[n:2n], ...` of a non-empty `s`. */
  function Chunks(s: string, n: nat): (r: seq<string>)
    requires n > 0 && s != []
    ensures |r| >= 1
    ensures forall i :: 0 <= i < |r| ==> 0 < |r[i]| <= n
    ensures forall i :: 0 <= i < |r| - 1 ==> |r[i]| == n
    decreases |s|
  {
    if |s| <= n then [s] else [s[..n]] + Chunks(s[n..], n)
  }

  /**
   * `chunk_text(s, n)`: the list comprehension over `range(0, len(s), n)`,
   * or `[""]` when it is empty (an empty `s`, or a negative step `n`).
   * A zero `n` makes `range` raise, so callers must not pass it.
   */
  function ChunkText(s: string, n: int): (r: seq<string>)
    requires n != 0
    ensures |r| >= 1
    ensures (s == [] || n < 0) ==> r == [""]
    ensures n > 0 ==> Join(r) == s && forall i :: 0 <= i < |r| ==> |r[i]| <= n
  {
    if n < 0 || s == [] then [""] else ChunksJoin(s, n); Chunks(s, n)
  }

  /** Gluing the pieces back together gives the input. */
  lemma {:induction false} ChunksJoin(s: string, n: nat)
    requires n > 0 && s != []
    ensures Join(Chunks(s, n)) == s
    decreases |s|
  {
    var c := Chunks(s, n);
    if |s| > n {
      assert c[0] == s[..n] && c[1..] == Chunks(s[n..], n);
      ChunksJoin(s[n..], n);
      assert s[..n] + s[n..] == s;
    } else {
      assert c[1..] == [];
    }
  }

  /** `i * n`, computed by repeated addition so that the proofs below stay linear. */
  function Offset(i: nat, n: nat): nat
  {
    if i == 0 then 0 else Offset(i - 1, n) + n
  }

  /** The i-th piece is exactly the comprehension's `s[i*n:i*n+n]`. */
  lemma {:induction false} ChunkAt(s: string, n: nat, i: nat)
    requires n > 0 && s != [] && i < |Chunks(s, n)|
    ensures Offset(i, n) < |s|
    ensures Chunks(s, n)[i] == s[Offset(i, n)..Min(Offset(i, n) + n, |s|)]
    decreases |s|
  {
    if i > 0 {
      var rest := s[n..];
      var j := i - 1;
      assert Chunks(s, n)[i] == Chunks(rest, n)[j];
      ChunkAt(rest, n, j);
      var b := Offset(j, n);
      var e := Min(b + n, |rest|);
      SliceOfSuffix(s, n, b, e);
      var oi := Offset(i, n);
      assert oi == b + n;
      assert |rest| == |s| - n;
      assert Min(oi + n, |s|) == n + e;
      assert Chunks(s, n)[i] == s[n + b..n + e];
    }
  }

  lemma SliceOfSuffix(s: string, n: nat, b: nat, e: nat)
    requires n <= |s| && b <= e <= |s| - n
    ensures s[n..][b..e] == s[n + b..n + e]
  {
  }

  function Min(a: int, b: int): int { if a <= b then a else b }

  lemma {:induction false} OffsetIsProduct(i: nat, n: nat)
    ensures Offset(i, n) == i * n
  {
    if i > 0 {
      OffsetIsProduct(i - 1, n);
      MulSucc(i - 1, n);
    }
  }

  lemma MulSucc(k: int, n: int)
    ensures (k + 1) * n == k * n + n
  {
  }

  /** There are `ceil(|s| / n)` pieces: the fewest pieces of length n that cover s. */
  lemma {:induction false} ChunkCount(s: string, n: nat)
    requires n > 0 && s != []
    ensures (|Chunks(s, n)| - 1) * n < |s| <= |Chunks(s, n)| * n
    decreases |s|
  {
    if |s| > n {
      var k := |Chunks(s[n..], n)|;
      ChunkCount(s[n..], n);
      assert |Chunks(s, n)| == k + 1;
      MulSucc(k, n);
      MulSucc(k - 1, n);
    }
  }

  // ---------------------------------------------------------------------
  // normalize_waid (app.py:95-102)
  // ---------------------------------------------------------------------

  const WhatsAppPrefix: string := "whatsapp:"

  /**
   * `normalize_waid(s)`: the empty string is returned as is; otherwise strip
   * white space, drop one leading "whatsapp:" and then every leading '+'.
   */
  function NormalizeWaid(s: string): (r: string)
    ensures s == [] ==> r == []
    ensures r == [] || r[0] != '+'
  {
    if s == [] then s
    else
      var t := Strip(s);
      var u := if WhatsAppPrefix <= t then t[|WhatsAppPrefix|..] else t;
      LStripChar(u, '+')
  }

  /** A WhatsApp id as the providers deliver it after normalisation: a non-empty digit string. */
  predicate IsCanonicalWaid(d: string) {
    d != [] && forall i :: 0 <= i < |d| ==> IsDigit(d[i])
  }

  lemma StripUnpadded(s: string)
    requires s != [] && !IsSpace(s[0]) && !IsSpace(s[|s| - 1])
    ensures Strip(s) == s
  {
    assert LStripSpace(s) == s;
  }

  /** Canonical ids are fixed points of the normalisation. */
  lemma NormalizeWaidCanonical(d: string)
    requires IsCanonicalWaid(d)
    ensures NormalizeWaid(d) == d
  {
    DigitNotSpace(d[0]);
    DigitNotSpace(d[|d| - 1]);
    assert !(WhatsAppPrefix <= d) by { assert !IsDigit(WhatsAppPrefix[0]); }
    NormalizeWaidUnprefixed(d);
    assert LStripChar(d, '+') == d;
  }

  /** The international form "+d" normalises to d. */
  lemma NormalizeWaidPlus(d: string)
    requires IsCanonicalWaid(d)
    ensures NormalizeWaid("+" + d) == d
  {
    var p := "+" + d;
    assert p[|p| - 1] == d[|d| - 1];
    DigitNotSpace(d[|d| - 1]);
    assert p[0] == '+';
    assert !(WhatsAppPrefix <= p) by { assert WhatsAppPrefix[0] == 'w'; }
    NormalizeWaidUnprefixed(p);
    PlusDigitsStripped(d);
  }

  lemma DigitNotSpace(c: char)
    requires IsDigit(c)
    ensures !IsSpace(c)
  {
  }

  /** Without surrounding white space or the transport prefix, only the leading '+' signs go. */
  lemma NormalizeWaidUnprefixed(t: string)
    requires t != [] && !IsSpace(t[0]) && !IsSpace(t[|t| - 1]) && !(WhatsAppPrefix <= t)
    ensures NormalizeWaid(t) == LStripChar(t, '+')
  {
    StripUnpadded(t);
  }

  /** The transport form "whatsapp:+d" normalises to d. */
  lemma NormalizeWaidTransport(d: string)
    requires IsCanonicalWaid(d)
    ensures NormalizeWaid(WhatsAppPrefix + "+" + d) == d
  {
    var p := "+" + d;
    assert WhatsAppPrefix + "+" + d == WhatsAppPrefix + p;
    assert p[|p| - 1] == d[|d| - 1];
    DigitNotSpace(d[|d| - 1]);
    NormalizeWaidPrefixed(p);
    PlusDigitsStripped(d);
  }

  lemma PlusDigitsStripped(d: string)
    requires IsCanonicalWaid(d)
    ensures LStripChar("+" + d, '+') == d
  {
    var p := "+" + d;
    assert p[1..] == d;
    assert LStripChar(d, '+') == d;
  }

  lemma NormalizeWaidPrefixed(p: string)
    requires p != [] && !IsSpace(p[|p| - 1])
    ensures NormalizeWaid(WhatsAppPrefix + p) == LStripChar(p, '+')
  {
    PrefixedUnpadded(p);
    PrefixedDrop(p);
  }

  lemma PrefixedUnpadded(p: string)
    requires p != [] && !IsSpace(p[|p| - 1])
    ensures Strip(WhatsAppPrefix + p) == WhatsAppPrefix + p
  {
    var w := WhatsAppPrefix + p;
    assert w[|w| - 1] == p[|p| - 1];
    assert w[0] == 'w';
    StripUnpadded(w);
  }

  lemma PrefixedDrop(p: string)
    ensures WhatsAppPrefix <= WhatsAppPrefix + p && (WhatsAppPrefix + p)[|WhatsAppPrefix|..] == p
  {
  }


  // ---------------------------------------------------------------------
  // build_flight_links (app.py:632-641)
  // ---------------------------------------------------------------------

  const GoogleFlights: string := "https://www.google.com/travel/flights"
  const KayakFlights: string := "https://www.kayak.com/flights"

  /** The Google Flights and Kayak search links for a route, with the date when one is known. */
  function BuildFlightLinks(origin: Option<string>, dest: Option<string>, depart: Option<string>): (r: seq<string>)
    ensures |r| == 2
    ensures Truthy(origin) && Truthy(dest) ==> GoogleLink(origin.value, dest.value, None) <= r[0]
    ensures Truthy(origin) && Truthy(dest) ==> KayakLink(origin.value, dest.value, None) <= r[1]
    ensures Truthy(origin) && Truthy(dest) && !Truthy(depart) ==>
      r == [GoogleFlights + "?q=Flights%20from%20" + origin.value + "%20to%20" + dest.value,
            KayakFlights + "/" + origin.value + "-" + dest.value]
    ensures !(Truthy(origin) && Truthy(dest)) ==> r == [GoogleFlights, KayakFlights]
  {
    if Truthy(origin) && Truthy(dest) then
      var o, d := origin.value, dest.value;
      AppendEmpty(GoogleRoute(o, d));
      AppendEmpty(KayakRoute(o, d));
      [GoogleLink(o, d, depart), KayakLink(o, d, depart)]
    else
      [GoogleFlights, KayakFlights]
  }

  /** The Google Flights query for a route; a known date adds "on <date>". */
  function GoogleLink(origin: string, dest: string, depart: Option<string>): string {
    GoogleRoute(origin, dest) + (if Truthy(depart) then "%20on%20" + depart.value else "")
  }

  function GoogleRoute(origin: string, dest: string): string {
    GoogleFlights + "?q=Flights%20from%20" + origin + "%20to%20" + dest
  }

  /** The Kayak path for a route; a known date adds "/<date>?sort=bestflight_a". */
  function KayakLink(origin: string, dest: string, depart: Option<string>): string {
    KayakRoute(origin, dest) + KayakTail(depart)
  }

  function KayakRoute(origin: string, dest: string): string {
    KayakFlights + "/" + origin + "-" + dest
  }

  function KayakTail(depart: Option<string>): string {
    if Truthy(depart) then "/" + depart.value + "?sort=bestflight_a" else ""
  }

  lemma AppendEmpty(a: string)
    ensures a + "" == a && a <= a + ""
  {
  }

  lemma AppendAssoc(a: string, b: string, c: string)
    ensures a + (b + c) == a + b + c
  {
  }

  /** Two concatenations with equally long second parts agree part by part. */
  lemma Peel(a: string, x: string, b: string, y: string)
    requires a + x == b + y && |x| == |y|
    ensures a == b && x == y
  {
    assert a == (a + x)[..|a|];
    assert b == (b + y)[..|b|];
    assert x == (a + x)[|a|..];
    assert y == (b + y)[|b|..];
  }

  /** A dated link is the undated link of the same route with the date appended. */
  lemma DatedLinksExtendRouteLinks(origin: Option<string>, dest: Option<string>, depart: Option<string>)
    requires Truthy(origin) && Truthy(dest) && Truthy(depart)
    ensures BuildFlightLinks(origin, dest, depart)[0] == BuildFlightLinks(origin, dest, None)[0] + "%20on%20" + depart.value
    ensures BuildFlightLinks(origin, dest, depart)[1] == BuildFlightLinks(origin, dest, None)[1] + "/" + depart.value + "?sort=bestflight_a"
  {
    var o, d, v := origin.value, dest.value, depart.value;
    AppendEmpty(GoogleRoute(o, d));
    AppendEmpty(KayakRoute(o, d));
    AppendAssoc(GoogleRoute(o, d), "%20on%20", v);
    AppendAssoc(KayakRoute(o, d), "/" + v, "?sort=bestflight_a");
    AppendAssoc(KayakRoute(o, d), "/", v);
  }

  /** With three-letter airport codes, the Kayak link determines the route. */
  lemma KayakLinkDeterminesRoute(o1: string, d1: string, o2: string, d2: string, depart: Option<string>)
    requires |o1| == 3 && |d1| == 3 && |o2| == 3 && |d2| == 3
    requires BuildFlightLinks(Some(o1), Some(d1), depart)[1] == BuildFlightLinks(Some(o2), Some(d2), depart)[1]
    ensures o1 == o2 && d1 == d2
  {
    var a := KayakFlights + "/";
    assert KayakLink(o1, d1, depart) == KayakLink(o2, d2, depart);
    Peel(KayakRoute(o1, d1), KayakTail(depart), KayakRoute(o2, d2), KayakTail(depart));
    Peel(a + o1 + "-", d1, a + o2 + "-", d2);
    Peel(a + o1, "-", a + o2, "-");
    Peel(a, o1, a, o2);
  }

}
