/** The texts that identify a run's channels: ownership markers, banner URLs and generated names,
    and the normal form of channel names. */
module Naming {
  // ------------------------------------------------------------ decimal numbers

  function Digit(d: nat): (c: char)
    requires d < 10
    ensures '0' <= c <= '9' && c as int == '0' as int + d
  {
    ('0' as int + d) as char
  }

  predicate IsDigit(c: char) {
    '0' <= c <= '9'
  }

  function Decimal(n: nat): (s: string)
    ensures |s| > 0 && forall i :: 0 <= i < |s| ==> IsDigit(s[i])
  {
    if n < 10 then [Digit(n)] else Decimal(n / 10) + [Digit(n % 10)]
  }

  lemma {:induction false} DecimalInjective(m: nat, n: nat)
    requires Decimal(m) == Decimal(n)
    ensures m == n
    decreases m + n
  {
    var s, t := Decimal(m), Decimal(n);
    assert s[|s| - 1] == t[|t| - 1];
    if m >= 10 && n >= 10 {
      assert s[..|s| - 1] == Decimal(m / 10) && t[..|t| - 1] == Decimal(n / 10);
      DecimalInjective(m / 10, n / 10);
    }
  }

  // ------------------------------------------------------------ markers and URLs

  function WallpaperMarker(runId: string, position: nat): string {
    "ts-icon:" + runId + ":" + Decimal(position)
  }

  function WallpaperRowUrl(runId: string, position: nat, baseUrl: string): string {
    baseUrl + "/images/wallpaper/" + runId + "/" + Decimal(position) + ".png"
  }

  /** `encode` is the percent encoding of an id. */
  function ExpectedBannerUrlForId(cid: string, baseUrl: string, encode: string -> string): string {
    baseUrl + "/images/by-id/" + encode(cid) + ".png"
  }

  /** Text in front of a separator and digits behind it can be told apart. */
  lemma {:induction false} SplitAtLast(a: string, x: string, b: string, y: string, sep: char)
    requires !IsDigit(sep) && a + [sep] + x == b + [sep] + y
    requires forall i :: 0 <= i < |x| ==> IsDigit(x[i])
    requires forall i :: 0 <= i < |y| ==> IsDigit(y[i])
    ensures a == b && x == y
  {
    var s, t := a + [sep] + x, b + [sep] + y;
    assert s[|a|] == sep && t[|b|] == sep;
    assert forall i :: |a| < i < |s| ==> s[i] == x[i - |a| - 1];
    assert forall i :: |b| < i < |t| ==> t[i] == y[i - |b| - 1];
    LastOtherThanDigit(s, |a|, |b|);
    assert a == s[..|a|] && b == t[..|b|];
    assert x == s[|a| + 1..] && y == t[|b| + 1..];
  }

  lemma LastOtherThanDigit(s: string, i: nat, j: nat)
    requires i < |s| && !IsDigit(s[i]) && forall k :: i < k < |s| ==> IsDigit(s[k])
    requires j < |s| && !IsDigit(s[j]) && forall k :: j < k < |s| ==> IsDigit(s[k])
    ensures i == j
  {
  }

  lemma SamePrefix(p: string, a: string, b: string)
    requires p + a == p + b
    ensures a == b
  {
    assert a == (p + a)[|p|..] && b == (p + b)[|p|..];
  }

  lemma SameSuffix(a: string, b: string, s: string)
    requires a + s == b + s
    ensures a == b
  {
    assert |a| == |b|;
    assert a == (a + s)[..|a|] && b == (b + s)[..|b|];
  }

  /** A marker names one row of one run. */
  lemma MarkerInjective(run1: string, p1: nat, run2: string, p2: nat)
    ensures WallpaperMarker(run1, p1) == WallpaperMarker(run2, p2) <==> run1 == run2 && p1 == p2
  {
    if WallpaperMarker(run1, p1) == WallpaperMarker(run2, p2) {
      var h := "ts-icon:";
      assert WallpaperMarker(run1, p1) == h + run1 + [':'] + Decimal(p1);
      assert WallpaperMarker(run2, p2) == h + run2 + [':'] + Decimal(p2);
      SplitAtLast(h + run1, Decimal(p1), h + run2, Decimal(p2), ':');
      SamePrefix(h, run1, run2);
      DecimalInjective(p1, p2);
    }
  }

  /** So does a provisional banner URL. */
  lemma RowUrlInjective(run1: string, p1: nat, run2: string, p2: nat, baseUrl: string)
    ensures WallpaperRowUrl(run1, p1, baseUrl) == WallpaperRowUrl(run2, p2, baseUrl) <==> run1 == run2 && p1 == p2
  {
    if WallpaperRowUrl(run1, p1, baseUrl) == WallpaperRowUrl(run2, p2, baseUrl) {
      var h := baseUrl + "/images/wallpaper/";
      var a, b := h + run1 + ['/'] + Decimal(p1), h + run2 + ['/'] + Decimal(p2);
      assert WallpaperRowUrl(run1, p1, baseUrl) == a + ".png" && WallpaperRowUrl(run2, p2, baseUrl) == b + ".png";
      SameSuffix(a, b, ".png");
      SplitAtLast(h + run1, Decimal(p1), h + run2, Decimal(p2), '/');
      SamePrefix(h, run1, run2);
      DecimalInjective(p1, p2);
    }
  }

  /** A provisional URL is never a final one, and final ones differ when encoded ids do. */
  lemma FinalUrls(run: string, p: nat, c: string, d: string, baseUrl: string, encode: string -> string)
    ensures WallpaperRowUrl(run, p, baseUrl) != ExpectedBannerUrlForId(c, baseUrl, encode)
    ensures ExpectedBannerUrlForId(c, baseUrl, encode) == ExpectedBannerUrlForId(d, baseUrl, encode) <==> encode(c) == encode(d)
  {
    var w, i := WallpaperRowUrl(run, p, baseUrl), ExpectedBannerUrlForId(c, baseUrl, encode);
    assert w[|baseUrl| + 8] == 'w' && i[|baseUrl| + 8] == 'b';
    var h := baseUrl + "/images/by-id/";
    if ExpectedBannerUrlForId(c, baseUrl, encode) == ExpectedBannerUrlForId(d, baseUrl, encode) {
      SameSuffix(h + encode(c), h + encode(d), ".png");
      SamePrefix(h, encode(c), encode(d));
    }
  }

  // ------------------------------------------------------------ generated names

  /** How many of the first `n` rows are of this kind. */
  function Count(spacers: seq<bool>, n: nat, kind: bool): nat
    requires n <= |spacers|
  {
    if n == 0 then 0 else Count(spacers, n - 1, kind) + (if spacers[n - 1] == kind then 1 else 0)
  }

  function NameOf(prefix: string, isSpacer: bool, k: nat): string {
    if isSpacer then prefix + " spacer " + Decimal(k) else prefix + " " + Decimal(k)
  }

  /** Row `i`'s name: the running number among the rows of its kind. */
  function NameAt(prefix: string, spacers: seq<bool>, i: nat): string
    requires i < |spacers|
  {
    NameOf(prefix, spacers[i], Count(spacers, i + 1, spacers[i]))
  }

  /** Generated names of one run are pairwise distinct. */
  method NamesForRows(prefix: string, spacers: seq<bool>) returns (names: seq<string>)
    ensures |names| == |spacers|
    ensures forall i :: 0 <= i < |names| ==> names[i] == NameAt(prefix, spacers, i)
    ensures forall i, j :: 0 <= i < j < |names| ==> names[i] != names[j]
  {
    var art, spacer := 0, 0;
    names := [];
    for n := 0 to |spacers|
      invariant |names| == n && art == Count(spacers, n, false) && spacer == Count(spacers, n, true)
      invariant forall i :: 0 <= i < n ==> names[i] == NameAt(prefix, spacers, i)
    {
      if spacers[n] {
        spacer := spacer + 1;
      } else {
        art := art + 1;
      }
      names := names + [NameOf(prefix, spacers[n], if spacers[n] then spacer else art)];
    }
    forall i, j | 0 <= i < j < |names| ensures names[i] != names[j] {
      NamesDiffer(prefix, spacers, i, j);
    }
  }

  lemma NamesDiffer(prefix: string, spacers: seq<bool>, i: nat, j: nat)
    requires i < j < |spacers|
    ensures NameAt(prefix, spacers, i) != NameAt(prefix, spacers, j)
  {
    var a, b := Count(spacers, i + 1, spacers[i]), Count(spacers, j + 1, spacers[j]);
    if spacers[i] == spacers[j] {
      CountGrows(spacers, i + 1, j, spacers[j]);
    }
    NameInjective(prefix, spacers[i], a, spacers[j], b);
  }

  lemma NameInjective(prefix: string, k1: bool, n1: nat, k2: bool, n2: nat)
    ensures NameOf(prefix, k1, n1) == NameOf(prefix, k2, n2) <==> k1 == k2 && n1 == n2
  {
    if k1 != k2 {
      assert NameOf(prefix, true, if k1 then n1 else n2)[|prefix| + 1] == 's';
      assert IsDigit(NameOf(prefix, false, if k1 then n2 else n1)[|prefix| + 1]);
    } else if NameOf(prefix, k1, n1) == NameOf(prefix, k2, n2) {
      SamePrefix(if k1 then prefix + " spacer " else prefix + " ", Decimal(n1), Decimal(n2));
      DecimalInjective(n1, n2);
    }
  }

  lemma {:induction false} CountGrows(spacers: seq<bool>, m: nat, n: nat, kind: bool)
    requires m <= n <= |spacers|
    ensures Count(spacers, m, kind) <= Count(spacers, n, kind)
    decreases n
  {
    if m < n {
      CountGrows(spacers, m, n - 1, kind);
    }
  }

  // ------------------------------------------------------------ the normal form

  const SPACER_BASE_IMAGE_CHANNEL_NAME := "__spacer_base_image__"

  predicate Plain(c: char) {
    'a' <= c <= 'z' || '0' <= c <= '9' || c == '-'
  }

  predicate PlainText(s: string) {
    forall i :: 0 <= i < |s| ==> Plain(s[i])
  }

  /** The Unicode tables: lower-casing and what counts as white space. */
  datatype Unicode = Unicode(lower: string -> string, isSpace: char -> bool) {
    ghost predicate Valid() {
      && (forall s :: PlainText(s) ==> lower(s) == s)
      && (forall c :: isSpace(c) ==> !Plain(c))
    }
  }

  function Unaccent(s: string): string {
    seq(|s|, i requires 0 <= i < |s| =>
      if s[i] == '\U{e4}' || s[i] == '\U{c4}' then 'a'
      else if s[i] == '\U{f6}' || s[i] == '\U{d6}' then 'o'
      else if s[i] == '\U{fc}' || s[i] == '\U{dc}' then 'u'
      else s[i])
  }

  /** Each run of white space becomes one hyphen. */
  function Hyphenate(u: Unicode, s: string): string {
    if s == "" then ""
    else if !u.isSpace(s[0]) then [s[0]] + Hyphenate(u, s[1..])
    else if |s| > 1 && u.isSpace(s[1]) then Hyphenate(u, s[1..])
    else "-" + Hyphenate(u, s[1..])
  }

  function Strip(s: string): (r: string)
    ensures PlainText(r)
  {
    if s == "" then "" else (if Plain(s[0]) then [s[0]] else "") + Strip(s[1..])
  }

  function NormalizeChannelName(u: Unicode, name: string): string {
    Strip(Hyphenate(u, Unaccent(u.lower(name))))
  }

  /** No channel name normalises to the reserved name of the shared spacer image. */
  lemma SentinelIsReserved(u: Unicode, name: string)
    ensures PlainText(NormalizeChannelName(u, name))
    ensures NormalizeChannelName(u, name) != SPACER_BASE_IMAGE_CHANNEL_NAME
  {
    assert !Plain(SPACER_BASE_IMAGE_CHANNEL_NAME[0]);
  }

  /** A normalised name is its own normal form. */
  lemma NormalizeIsIdempotent(u: Unicode, name: string)
    requires u.Valid()
    ensures NormalizeChannelName(u, NormalizeChannelName(u, name)) == NormalizeChannelName(u, name)
  {
    var s := NormalizeChannelName(u, name);
    assert u.lower(s) == s;
    assert Unaccent(s) == s;
    PlainStays(u, s);
  }

  lemma {:induction false} PlainStays(u: Unicode, s: string)
    requires u.Valid() && PlainText(s)
    ensures Hyphenate(u, s) == s && Strip(s) == s
  {
    if s != "" {
      assert Plain(s[0]) && PlainText(s[1..]);
      PlainStays(u, s[1..]);
      assert s == [s[0]] + s[1..];
    }
  }
}
