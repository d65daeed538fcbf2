/** The text that fingerprints a pool's configuration across a reload (server.go). */
module Signature {
  import opened Names
  import opened State

  /** What NewPool receives from a configuration, the pool's name apart. Grace and
      cooldown are in seconds, as the signature prints them. */
  datatype PoolArgs = PoolArgs(grace: int, cooldown: int, defaultSvc: Name, members: seq<MemberConfig>)

  // --- numbers and durations as fmt prints them ---

  function Digit(d: nat): char
    requires d < 10
  {
    ['0', '1', '2', '3', '4', '5', '6', '7', '8', '9'][d]
  }

  predicate IsDigit(c: char)
  {
    '0' <= c <= '9'
  }

  function Digits(n: nat): (r: string)
    ensures r != [] && forall c :: c in r ==> IsDigit(c)
  {
    if n < 10 then [Digit(n)] else Digits(n / 10) + [Digit(n % 10)]
  }

  /** The number a digit string denotes. */
  function Value(s: string): int
  {
    if s == [] then 0 else Value(s[..|s| - 1]) * 10 + (s[|s| - 1] as int - '0' as int)
  }

  lemma {:induction false} ValueOfDigits(n: nat)
    ensures Value(Digits(n)) == n
  {
    if n < 10 {
      assert Digits(n)[..0] == [];
    } else {
      ValueOfDigits(n / 10);
      assert Digits(n)[..|Digits(n)| - 1] == Digits(n / 10);
    }
  }

  lemma DigitsInjective(a: nat, b: nat)
    requires Digits(a) == Digits(b)
    ensures a == b
  {
    ValueOfDigits(a);
    ValueOfDigits(b);
  }

  /** %d of an integer. */
  function Itoa(i: int): (r: string)
    ensures forall c :: c in r ==> IsDigit(c) || c == '-'
  {
    if i < 0 then "-" + Digits(-i) else Digits(i)
  }

  lemma ItoaSign(i: int)
    ensures Itoa(i) != [] && (Itoa(i)[0] == '-' <==> i < 0)
  {
    if i >= 0 { assert Digits(i)[0] in Digits(i); }
  }

  lemma ItoaInjective(a: int, b: int)
    requires Itoa(a) == Itoa(b)
    ensures a == b
  {
    ItoaSign(a);
    ItoaSign(b);
    if a < 0 {
      assert Itoa(a)[1..] == Digits(-a) && Itoa(b)[1..] == Digits(-b);
      DigitsInjective(-a, -b);
    } else {
      DigitsInjective(a, b);
    }
  }

  /** Minutes, with hours in front when there are any. */
  function Minutes(k: nat): string
  {
    if k < 60 then Digits(k) else Digits(k / 60) + ['h'] + Digits(k % 60)
  }

  /** Thousandths, without trailing zeros. */
  function Fraction(f: nat): string
    requires f < 1000
  {
    if f % 10 != 0 then [Digit(f / 100), Digit(f / 10 % 10), Digit(f % 10)]
    else if f / 10 % 10 != 0 then [Digit(f / 100), Digit(f / 10 % 10)]
    else [Digit(f / 100)]
  }

  function Point(s: nat, f: nat): string
    requires f < 1000
  {
    if f == 0 then Digits(s) else Digits(s) + ['.'] + Fraction(f)
  }

  /** A second or more, or nothing at all: minutes and hours in front when there are any. */
  function Clock(ms: nat): string
  {
    var s, f := ms / 1000, ms % 1000;
    if s < 60 then Point(s, f) else Minutes(s / 60) + ['m'] + Point(s % 60, f)
  }

  function Unsigned(ms: nat): string
  {
    if 0 < ms < 1000 then Digits(ms) + ['m'] else Clock(ms)
  }

  function Signed(ms: int): string
  {
    if ms < 0 then "-" + Unsigned(-ms) else Unsigned(ms)
  }

  /** Duration.String of a whole number of milliseconds. */
  function DurationText(ms: int): string
  {
    Signed(ms) + "s"
  }

  // --- where a joined string was joined ---

  lemma CutLast(x: string, a: string, y: string, b: string, sep: char)
    requires sep !in a && sep !in b
    requires x + [sep] + a == y + [sep] + b
    ensures x == y && a == b
  {
    var s := x + [sep] + a;
    forall k | |x| < k < |s| ensures s[k] != sep { assert s[k] == a[k - |x| - 1]; }
    forall k | |y| < k < |s| ensures s[k] != sep { assert s[k] == b[k - |y| - 1]; }
    assert s[|x|] == sep && s[|y|] == sep;
    assert x == s[..|x|] && y == s[..|x|];
    assert a == s[|x| + 1..] && b == s[|x| + 1..];
  }

  lemma CutFirst(a: string, x: string, b: string, y: string, sep: char)
    requires sep !in a && sep !in b
    requires a + [sep] + x == b + [sep] + y
    ensures a == b && x == y
  {
    var s := a + [sep] + x;
    forall k | 0 <= k < |a| ensures s[k] != sep { assert s[k] == a[k]; }
    forall k | 0 <= k < |b| ensures s[k] != sep { assert s[k] == b[k]; }
    assert s[|a|] == sep && s[|b|] == sep;
    assert a == s[..|a|] && b == s[..|a|];
    assert x == s[|a| + 1..] && y == s[|a| + 1..];
  }

  lemma MinutesHours(k: nat)
    ensures 'h' in Minutes(k) <==> k >= 60
  {
    if k >= 60 { assert Minutes(k)[|Digits(k / 60)|] == 'h'; }
  }

  lemma MinutesInjective(a: nat, b: nat)
    requires Minutes(a) == Minutes(b)
    ensures a == b
  {
    MinutesHours(a);
    MinutesHours(b);
    if a < 60 {
      DigitsInjective(a, b);
    } else {
      CutLast(Digits(a / 60), Digits(a % 60), Digits(b / 60), Digits(b % 60), 'h');
      DigitsInjective(a / 60, b / 60);
      DigitsInjective(a % 60, b % 60);
    }
  }

  lemma DigitInjective(a: nat, b: nat)
    requires a < 10 && b < 10 && Digit(a) == Digit(b)
    ensures a == b
  {
  }

  lemma ThreeDigits(f: nat)
    requires f < 1000
    ensures f == f / 100 * 100 + f / 10 % 10 * 10 + f % 10
  {
    assert f / 10 / 10 == f / 100;
  }

  /** Cutting trailing zeros loses nothing: the digits cut are zeros again. */
  lemma FractionDigits(f: nat)
    requires f < 1000
    ensures 1 <= |Fraction(f)| <= 3 && Fraction(f)[0] == Digit(f / 100)
    ensures if |Fraction(f)| > 1 then Fraction(f)[1] == Digit(f / 10 % 10) else f / 10 % 10 == 0
    ensures if |Fraction(f)| > 2 then Fraction(f)[2] == Digit(f % 10) else f % 10 == 0
  {
  }

  lemma FractionInjective(a: nat, b: nat)
    requires a < 1000 && b < 1000 && Fraction(a) == Fraction(b)
    ensures a == b
  {
    FractionDigits(a);
    FractionDigits(b);
    ThreeDigits(a);
    ThreeDigits(b);
    DigitInjective(a / 100, b / 100);
    if |Fraction(a)| > 1 { DigitInjective(a / 10 % 10, b / 10 % 10); }
    if |Fraction(a)| > 2 { DigitInjective(a % 10, b % 10); }
  }

  lemma PointChars(s: nat, f: nat)
    requires f < 1000
    ensures Point(s, f) != [] && IsDigit(Point(s, f)[|Point(s, f)| - 1])
    ensures (forall c :: c in Point(s, f) ==> IsDigit(c) || c == '.') && ('.' in Point(s, f) <==> f > 0)
  {
    if f == 0 {
      assert Digits(s)[|Digits(s)| - 1] in Digits(s);
    } else {
      assert Point(s, f)[|Digits(s)|] == '.';
      FractionChars(f);
    }
  }

  lemma FractionChars(f: nat)
    requires f < 1000
    ensures Fraction(f) != [] && forall c :: c in Fraction(f) ==> IsDigit(c)
  {
  }

  lemma PointInjective(s: nat, f: nat, t: nat, g: nat)
    requires f < 1000 && g < 1000 && Point(s, f) == Point(t, g)
    ensures s == t && f == g
  {
    PointChars(s, f);
    PointChars(t, g);
    if f == 0 {
      DigitsInjective(s, t);
    } else {
      PointCut(s, Fraction(f), t, Fraction(g));
      FractionInjective(f, g);
    }
  }

  lemma PointCut(s: nat, x: string, t: nat, y: string)
    requires Digits(s) + ['.'] + x == Digits(t) + ['.'] + y
    ensures s == t && x == y
  {
    CutFirst(Digits(s), x, Digits(t), y, '.');
    DigitsInjective(s, t);
  }

  lemma ClockChars(ms: nat)
    ensures Clock(ms) != [] && IsDigit(Clock(ms)[|Clock(ms)| - 1])
    ensures forall c :: c in Clock(ms) ==> IsDigit(c) || c in {'h', 'm', '.'}
    ensures 'm' in Clock(ms) <==> ms / 1000 >= 60
  {
    var s, f := ms / 1000, ms % 1000;
    PointChars(s, f);
    PointChars(s % 60, f);
    if s >= 60 { assert Clock(ms)[|Minutes(s / 60)|] == 'm'; }
  }

  lemma ClockInjective(a: nat, b: nat)
    requires Clock(a) == Clock(b)
    ensures a == b
  {
    ClockChars(a);
    ClockChars(b);
    var s, f, t, g := a / 1000, a % 1000, b / 1000, b % 1000;
    if s < 60 {
      PointInjective(s, f, t, g);
    } else {
      PointChars(s % 60, f);
      PointChars(t % 60, g);
      CutLast(Minutes(s / 60), Point(s % 60, f), Minutes(t / 60), Point(t % 60, g), 'm');
      MinutesInjective(s / 60, t / 60);
      PointInjective(s % 60, f, t % 60, g);
    }
  }

  lemma UnsignedChars(ms: nat)
    ensures Unsigned(ms) != [] && (Unsigned(ms)[|Unsigned(ms)| - 1] == 'm' <==> 0 < ms < 1000)
    ensures IsDigit(Unsigned(ms)[0])
    ensures forall c :: c in Unsigned(ms) ==> IsDigit(c) || c in {'h', 'm', '.'}
  {
    ClockChars(ms);
    UnsignedStarts(ms);
  }

  lemma UnsignedStarts(ms: nat)
    ensures Unsigned(ms) != [] && IsDigit(Unsigned(ms)[0])
  {
    var s := ms / 1000;
    assert forall k: nat :: Digits(k)[0] in Digits(k);
    if !(0 < ms < 1000) && s >= 60 { assert Clock(ms)[0] == Minutes(s / 60)[0]; }
  }

  lemma UnsignedInjective(a: nat, b: nat)
    requires Unsigned(a) == Unsigned(b)
    ensures a == b
  {
    UnsignedChars(a);
    UnsignedChars(b);
    if 0 < a < 1000 {
      assert Digits(a) == Unsigned(a)[..|Unsigned(a)| - 1] && Digits(b) == Unsigned(b)[..|Unsigned(b)| - 1];
      DigitsInjective(a, b);
    } else {
      ClockInjective(a, b);
    }
  }

  lemma SignedChars(ms: int)
    ensures Signed(ms) != [] && (Signed(ms)[0] == '-' <==> ms < 0)
    ensures forall c :: c in Signed(ms) ==> IsDigit(c) || c in {'h', 'm', '.', '-'}
  {
    UnsignedChars(if ms < 0 then -ms else ms);
  }

  lemma DurationInjective(a: int, b: int)
    requires DurationText(a) == DurationText(b)
    ensures a == b
  {
    SameLast(Signed(a), Signed(b), "s");
    SignedChars(a);
    SignedChars(b);
    if a < 0 {
      SameFirst("-", Unsigned(-a), Unsigned(-b));
      UnsignedInjective(-a, -b);
    } else {
      UnsignedInjective(a, b);
    }
  }

  lemma SameLast(x: string, y: string, end: string)
    requires x + end == y + end
    ensures x == y
  {
    assert x == (x + end)[..|x + end| - |end|] && y == (y + end)[..|y + end| - |end|];
  }

  lemma SameFirst(start: string, x: string, y: string)
    requires start + x == start + y
    ensures x == y
  {
    assert x == (start + x)[|start|..] && y == (start + y)[|start|..];
  }

  // --- the signature ---

  /** The fields after the container. */
  function Tail(m: MemberConfig): string
  {
    m.healthURL + [':'] + DurationText(m.startupTimeout) + [':'] + Itoa(m.maxQueue)
  }

  function Entry(m: MemberConfig): string
  {
    m.name + [':'] + (m.containerName + [':'] + Tail(m))
  }

  /** Every text with a bar before it. */
  function Bars(texts: seq<string>): string
  {
    if texts == [] then "" else Bars(texts[..|texts| - 1]) + ['|'] + texts[|texts| - 1]
  }

  function Texts(ms: seq<MemberConfig>): seq<string>
  {
    seq(|ms|, i requires 0 <= i < |ms| => Entry(ms[i]))
  }

  function Head(a: PoolArgs): string
  {
    "g=" + (Itoa(a.grace) + [';'] + ("c=" + (Itoa(a.cooldown) + [';'] + ("d=" + a.defaultSvc))))
  }

  function SignatureOf(a: PoolArgs): string
  {
    Head(a) + Bars(Texts(a.members))
  }

  lemma BarsGrow(h: string, texts: seq<string>, i: nat)
    requires i < |texts|
    ensures h + Bars(texts[..i + 1]) == h + Bars(texts[..i]) + ['|'] + texts[i]
  {
    assert texts[..i + 1][..i] == texts[..i];
    assert Bars(texts[..i + 1]) == Bars(texts[..i]) + ['|'] + texts[i];
  }

  method WriteBars(h: string, ms: seq<MemberConfig>) returns (b: string)
    ensures b == h + Bars(Texts(ms))
  {
    ghost var texts := Texts(ms);
    b := h;
    for i := 0 to |ms|
      invariant b == h + Bars(texts[..i])
    {
      var e := Entry(ms[i]);
      BarsGrow(h, texts, i);
      b := b + ['|'] + e;
    }
    assert texts[..|ms|] == texts;
  }

  /** poolSignature: the head, then one member at a time. */
  method PoolSignature(a: PoolArgs) returns (b: string)
    ensures b == SignatureOf(a)
  {
    b := WriteBars(Head(a), a.members);
  }

  /** Colons end a name and a container, bars a URL and the default. */
  predicate PlainDefault(a: PoolArgs)
  {
    '|' !in a.defaultSvc
  }

  predicate PlainNames(a: PoolArgs)
  {
    forall m :: m in a.members ==> ':' !in m.name
  }

  predicate PlainContainers(a: PoolArgs)
  {
    forall m :: m in a.members ==> ':' !in m.containerName
  }

  predicate PlainURLs(a: PoolArgs)
  {
    forall m :: m in a.members ==> '|' !in m.healthURL
  }

  predicate Clean(a: PoolArgs)
  {
    PlainDefault(a) && PlainNames(a) && PlainContainers(a) && PlainURLs(a)
  }

  predicate CleanMember(m: MemberConfig)
  {
    ':' !in m.name && ':' !in m.containerName && '|' !in m.healthURL
  }

  lemma DurationChars(ms: int)
    ensures ':' !in DurationText(ms) && '|' !in DurationText(ms)
  {
    SignedChars(ms);
  }

  lemma TailInjective(m: MemberConfig, n: MemberConfig)
    requires Tail(m) == Tail(n)
    ensures m.healthURL == n.healthURL && m.startupTimeout == n.startupTimeout && m.maxQueue == n.maxQueue
  {
    CutLast(m.healthURL + [':'] + DurationText(m.startupTimeout), Itoa(m.maxQueue),
            n.healthURL + [':'] + DurationText(n.startupTimeout), Itoa(n.maxQueue), ':');
    DurationChars(m.startupTimeout);
    DurationChars(n.startupTimeout);
    CutLast(m.healthURL, DurationText(m.startupTimeout), n.healthURL, DurationText(n.startupTimeout), ':');
    DurationInjective(m.startupTimeout, n.startupTimeout);
    ItoaInjective(m.maxQueue, n.maxQueue);
  }

  lemma TailHasNoBar(m: MemberConfig)
    requires '|' !in m.healthURL
    ensures '|' !in Tail(m)
  {
    DurationChars(m.startupTimeout);
  }

  lemma HeadInjective(a: PoolArgs, b: PoolArgs)
    requires Head(a) == Head(b)
    ensures a.grace == b.grace && a.cooldown == b.cooldown && a.defaultSvc == b.defaultSvc
  {
    var ca := Itoa(a.cooldown) + [';'] + ("d=" + a.defaultSvc);
    var cb := Itoa(b.cooldown) + [';'] + ("d=" + b.defaultSvc);
    assert Head(a)[2..] == Itoa(a.grace) + [';'] + ("c=" + ca);
    assert Head(b)[2..] == Itoa(b.grace) + [';'] + ("c=" + cb);
    CutFirst(Itoa(a.grace), "c=" + ca, Itoa(b.grace), "c=" + cb, ';');
    assert ("c=" + ca)[2..] == ca && ("c=" + cb)[2..] == cb;
    CutFirst(Itoa(a.cooldown), "d=" + a.defaultSvc, Itoa(b.cooldown), "d=" + b.defaultSvc, ';');
    assert ("d=" + a.defaultSvc)[2..] == a.defaultSvc && ("d=" + b.defaultSvc)[2..] == b.defaultSvc;
    ItoaInjective(a.grace, b.grace);
    ItoaInjective(a.cooldown, b.cooldown);
  }

  lemma HeadHasNoBar(a: PoolArgs)
    requires '|' !in a.defaultSvc
    ensures '|' !in Head(a)
  {
  }

  /** What follows a text without a bar is nothing, or starts with one. */
  predicate AfterBar(rest: string)
  {
    rest == "" || rest[0] == '|'
  }

  lemma CutAtBar(a: string, x: string, b: string, y: string)
    requires '|' !in a && '|' !in b && AfterBar(x) && AfterBar(y) && a + x == b + y
    ensures a == b && x == y
  {
    var s := a + x;
    forall k | 0 <= k < |a| ensures s[k] != '|' { assert s[k] == a[k]; }
    forall k | 0 <= k < |b| ensures s[k] != '|' { assert s[k] == b[k]; }
    assert |a| < |s| ==> s[|a|] == x[0];
    assert |b| < |s| ==> s[|b|] == y[0];
    assert a == s[..|a|] && b == s[..|b|] && x == s[|a|..] && y == s[|b|..];
  }

  lemma {:induction false} BarsFront(x: string, rest: seq<string>)
    ensures Bars([x] + rest) == ['|'] + x + Bars(rest)
    decreases |rest|
  {
    var all := [x] + rest;
    if rest == [] {
      assert all[..0] == [];
    } else {
      var init := rest[..|rest| - 1];
      BarsFront(x, init);
      assert all[..|all| - 1] == [x] + init;
    }
  }

  lemma BarsFirst(texts: seq<string>)
    ensures AfterBar(Bars(texts)) && (texts == [] <==> Bars(texts) == "")
    ensures texts != [] ==> Bars(texts) == ['|'] + texts[0] + Bars(texts[1..])
  {
    if texts != [] {
      BarsFront(texts[0], texts[1..]);
      assert texts == [texts[0]] + texts[1..];
    }
  }

  lemma DropBar(t: string, x: string, u: string, y: string)
    requires ['|'] + t + x == ['|'] + u + y
    ensures t + x == u + y
  {
    assert t + x == (['|'] + t + x)[1..] && u + y == (['|'] + u + y)[1..];
  }

  lemma FirstEntry(m: MemberConfig, x: string, n: MemberConfig, y: string)
    requires CleanMember(m) && CleanMember(n) && AfterBar(x) && AfterBar(y)
    requires Entry(m) + x == Entry(n) + y
    ensures m == n && x == y
  {
    EntrySplit(m, x);
    EntrySplit(n, y);
    CutFirst(m.name, m.containerName + [':'] + (Tail(m) + x), n.name, n.containerName + [':'] + (Tail(n) + y), ':');
    CutFirst(m.containerName, Tail(m) + x, n.containerName, Tail(n) + y, ':');
    TailHasNoBar(m);
    TailHasNoBar(n);
    CutAtBar(Tail(m), x, Tail(n), y);
    TailInjective(m, n);
  }

  lemma Regroup(a: string, b: string, t: string, x: string)
    ensures (a + [':'] + (b + [':'] + t)) + x == a + [':'] + (b + [':'] + (t + x))
  {
  }

  lemma EntrySplit(m: MemberConfig, x: string)
    ensures Entry(m) + x == m.name + [':'] + (m.containerName + [':'] + (Tail(m) + x))
  {
    Regroup(m.name, m.containerName, Tail(m), x);
  }

  lemma TextsRest(ms: seq<MemberConfig>)
    requires ms != []
    ensures |Texts(ms)| == |ms| && Texts(ms)[0] == Entry(ms[0]) && Texts(ms)[1..] == Texts(ms[1..])
  {
    forall i | 0 <= i < |ms| - 1 ensures Texts(ms)[i + 1] == Texts(ms[1..])[i] {
      TextAt(ms, i + 1);
      TextAt(ms[1..], i);
    }
    RestIs(Texts(ms), Texts(ms[1..]));
  }

  lemma RestIs(a: seq<string>, b: seq<string>)
    requires |a| == |b| + 1 && forall i :: 0 <= i < |b| ==> a[i + 1] == b[i]
    ensures a[1..] == b
  {
  }

  lemma TextAt(ms: seq<MemberConfig>, i: nat)
    requires i < |ms|
    ensures Texts(ms)[i] == Entry(ms[i])
  {
  }

  lemma SameFront(m: MemberConfig, n: MemberConfig, a: seq<string>, b: seq<string>)
    requires CleanMember(m) && CleanMember(n) && a != [] && b != [] && a[0] == Entry(m) && b[0] == Entry(n)
    requires Bars(a) == Bars(b)
    ensures m == n && Bars(a[1..]) == Bars(b[1..])
  {
    BarsFirst(a);
    BarsFirst(b);
    DropBar(a[0], Bars(a[1..]), b[0], Bars(b[1..]));
    BarsFirst(a[1..]);
    BarsFirst(b[1..]);
    FirstEntry(m, Bars(a[1..]), n, Bars(b[1..]));
  }

  lemma SameSeq(ms: seq<MemberConfig>, ns: seq<MemberConfig>)
    requires ms != [] && ns != [] && ms[0] == ns[0] && ms[1..] == ns[1..]
    ensures ms == ns
  {
    assert ms == [ms[0]] + ms[1..] && ns == [ns[0]] + ns[1..];
  }

  lemma {:induction false} EntriesInjective(ms: seq<MemberConfig>, ns: seq<MemberConfig>, a: seq<string>,
      b: seq<string>)
    requires forall m :: m in ms || m in ns ==> CleanMember(m)
    requires a == Texts(ms) && b == Texts(ns) && Bars(a) == Bars(b)
    ensures ms == ns
    decreases |ms|
  {
    assert |a| == |ms| && |b| == |ns|;
    BarsFirst(a);
    BarsFirst(b);
    if ms != [] {
      TextsRest(ms);
      TextsRest(ns);
      SameFront(ms[0], ns[0], a, b);
      EntriesInjective(ms[1..], ns[1..], a[1..], b[1..]);
      SameSeq(ms, ns);
    }
  }

  /** A reused pool is the right pool: equal signatures mean equal arguments to NewPool, as long
      as no name and no container has a ':', and no URL and not the default a '|'. */
  lemma SignatureIsInjective(a: PoolArgs, b: PoolArgs)
    requires Clean(a) && Clean(b)
    ensures SignatureOf(a) == SignatureOf(b) ==> a == b
  {
    if SignatureOf(a) == SignatureOf(b) {
      HeadHasNoBar(a);
      HeadHasNoBar(b);
      BarsFirst(Texts(a.members));
      BarsFirst(Texts(b.members));
      CutAtBar(Head(a), Bars(Texts(a.members)), Head(b), Bars(Texts(b.members)));
      EntriesInjective(a.members, b.members, Texts(a.members), Texts(b.members));
      HeadInjective(a, b);
    }
  }

  // --- and each of the four conditions is needed ---

  lemma BarsOfTwo(x: string, y: string)
    ensures Bars([x]) == ['|'] + x && Bars([x, y]) == ['|'] + x + ['|'] + y
  {
    assert [x][..0] == [] && [x, y][..1] == [x];
    assert Bars([x]) == "" + ['|'] + x;
  }

  lemma HeadGrows(a: PoolArgs, x: string)
    ensures Head(a.(defaultSvc := a.defaultSvc + x)) == Head(a) + x
  {
    var d := "d=" + a.defaultSvc;
    assert "d=" + (a.defaultSvc + x) == d + x;
    assert "c=" + (Itoa(a.cooldown) + [';'] + (d + x)) == ("c=" + (Itoa(a.cooldown) + [';'] + d)) + x;
  }

  /** A bar in the default: a member can hide in it. */
  lemma DefaultCollides(a: PoolArgs, m: MemberConfig)
    ensures SignatureOf(a.(members := [m])) ==
      SignatureOf(a.(defaultSvc := a.defaultSvc + (['|'] + Entry(m)), members := []))
  {
    BarsOfTwo(Entry(m), "");
    assert Texts([m]) == [Entry(m)];
    HeadGrows(a, ['|'] + Entry(m));
  }

  lemma ColonsMove(x: string, y: string, z: string, u: string, rest: string)
    ensures (x + [':'] + y) + [':'] + (z + [':'] + (u + rest)) == x + [':'] + (y + [':'] + ((z + [':'] + u) + rest))
    ensures (x + [':'] + y) + [':'] + (u + rest) == x + [':'] + ((y + [':'] + u) + rest)
  {
  }

  lemma TailIs(m: MemberConfig)
    ensures Tail(m) == m.healthURL + ([':'] + DurationText(m.startupTimeout) + [':'] + Itoa(m.maxQueue))
  {
  }

  /** A colon in a name: name, container and URL can each begin further left. */
  lemma NameCollides(a: PoolArgs, m: MemberConfig, x: string, y: string, z: string, u: string)
    ensures SignatureOf(a.(members := [m.(name := x + [':'] + y, containerName := z, healthURL := u)])) ==
      SignatureOf(a.(members := [m.(name := x, containerName := y, healthURL := z + [':'] + u)]))
  {
    var p := m.(name := x + [':'] + y, containerName := z, healthURL := u);
    var q := m.(name := x, containerName := y, healthURL := z + [':'] + u);
    TailIs(p);
    TailIs(q);
    ColonsMove(x, y, z, u, [':'] + DurationText(m.startupTimeout) + [':'] + Itoa(m.maxQueue));
    assert Texts([p]) == [Entry(p)] && Texts([q]) == [Entry(q)];
  }

  /** A colon in a container: the URL can begin further left. */
  lemma ContainerCollides(a: PoolArgs, m: MemberConfig, x: string, y: string, u: string)
    ensures SignatureOf(a.(members := [m.(containerName := x + [':'] + y, healthURL := u)])) ==
      SignatureOf(a.(members := [m.(containerName := x, healthURL := y + [':'] + u)]))
  {
    var p := m.(containerName := x + [':'] + y, healthURL := u);
    var q := m.(containerName := x, healthURL := y + [':'] + u);
    TailIs(p);
    TailIs(q);
    ColonsMove(x, y, "", u, [':'] + DurationText(m.startupTimeout) + [':'] + Itoa(m.maxQueue));
    assert Texts([p]) == [Entry(p)] && Texts([q]) == [Entry(q)];
  }

  /** The URL of m, run on over the rest of its entry into that of n. */
  function RunOn(m: MemberConfig, n: MemberConfig): string
  {
    Tail(m) + ['|'] + (n.name + [':'] + (n.containerName + [':'] + n.healthURL))
  }

  lemma RunsOn(name: string, c: string, t: string, n: string, d: string, u: string, rest: string)
    ensures name + [':'] + (c + [':'] + ((t + ['|'] + (n + [':'] + (d + [':'] + u))) + rest)) ==
      (name + [':'] + (c + [':'] + t)) + ['|'] + (n + [':'] + (d + [':'] + (u + rest)))
  {
  }

  lemma EntryRunsOn(m: MemberConfig, n: MemberConfig, odd: MemberConfig)
    requires odd == n.(name := m.name, containerName := m.containerName, healthURL := RunOn(m, n))
    ensures Entry(odd) == Entry(m) + ['|'] + Entry(n)
  {
    TailIs(odd);
    TailIs(n);
    RunsOn(m.name, m.containerName, Tail(m), n.name, n.containerName, n.healthURL,
           [':'] + DurationText(n.startupTimeout) + [':'] + Itoa(n.maxQueue));
  }

  /** A bar in a URL: a whole second member can hide in it. */
  lemma URLCollides(a: PoolArgs, m: MemberConfig, n: MemberConfig)
    ensures SignatureOf(a.(members := [m, n])) ==
      SignatureOf(a.(members := [n.(name := m.name, containerName := m.containerName, healthURL := RunOn(m, n))]))
  {
    var odd := n.(name := m.name, containerName := m.containerName, healthURL := RunOn(m, n));
    EntryRunsOn(m, n, odd);
    BarJoins(Entry(m), Entry(n), Entry(odd));
    TextsOf(m, n);
    TextsOf(odd, odd);
  }

  lemma BarJoins(x: string, y: string, z: string)
    requires z == x + ['|'] + y
    ensures Bars([z]) == Bars([x, y])
  {
    BarsOfTwo(x, y);
    BarsOfTwo(z, y);
  }

  lemma TextsOf(m: MemberConfig, n: MemberConfig)
    ensures Texts([m]) == [Entry(m)] && Texts([m, n]) == [Entry(m), Entry(n)]
  {
  }

  ghost predicate Collide(a: PoolArgs, b: PoolArgs)
  {
    a != b && SignatureOf(a) == SignatureOf(b)
  }

  ghost predicate PlainMembers(a: PoolArgs)
  {
    PlainNames(a) && PlainContainers(a) && PlainURLs(a)
  }

  /** None of the four conditions can be dropped: two different arguments that meet the other
      three can share a signature. First the default ... */
  lemma PlainDefaultIsNeeded(m: MemberConfig) returns (a: PoolArgs, b: PoolArgs)
    requires CleanMember(m)
    ensures Collide(a, b) && PlainMembers(a) && PlainMembers(b)
  {
    a := PoolArgs(0, 0, NONE, [m]);
    b := a.(defaultSvc := a.defaultSvc + (['|'] + Entry(m)), members := []);
    DefaultCollides(a, m);
  }

  /** ... then the name, the container ... */
  lemma PlainNamesAreNeeded(m: MemberConfig) returns (a: PoolArgs, b: PoolArgs)
    ensures Collide(a, b) && PlainDefault(a) && PlainDefault(b)
    ensures PlainContainers(a) && PlainContainers(b) && PlainURLs(a) && PlainURLs(b)
  {
    var base := PoolArgs(0, 0, NONE, []);
    a := base.(members := [m.(name := "x" + [':'] + "y", containerName := "z", healthURL := "u")]);
    b := base.(members := [m.(name := "x", containerName := "y", healthURL := "z" + [':'] + "u")]);
    NameCollides(base, m, "x", "y", "z", "u");
    assert a.members[0].containerName != b.members[0].containerName;
  }

  lemma PlainContainersAreNeeded(m: MemberConfig) returns (a: PoolArgs, b: PoolArgs)
    requires ':' !in m.name
    ensures Collide(a, b) && PlainDefault(a) && PlainDefault(b)
    ensures PlainNames(a) && PlainNames(b) && PlainURLs(a) && PlainURLs(b)
  {
    var base := PoolArgs(0, 0, NONE, []);
    a := base.(members := [m.(containerName := "x" + [':'] + "y", healthURL := "u")]);
    b := base.(members := [m.(containerName := "x", healthURL := "y" + [':'] + "u")]);
    ContainerCollides(base, m, "x", "y", "u");
    assert a.members[0].healthURL != b.members[0].healthURL;
  }

  /** ... and the URL. */
  lemma PlainURLsAreNeeded(m: MemberConfig, n: MemberConfig) returns (a: PoolArgs, b: PoolArgs)
    requires CleanMember(m) && CleanMember(n)
    ensures Collide(a, b) && PlainDefault(a) && PlainDefault(b)
    ensures PlainNames(a) && PlainNames(b) && PlainContainers(a) && PlainContainers(b)
  {
    var base := PoolArgs(0, 0, NONE, []);
    a := base.(members := [m, n]);
    b := base.(members := [n.(name := m.name, containerName := m.containerName, healthURL := RunOn(m, n))]);
    URLCollides(base, m, n);
    assert |a.members| != |b.members|;
  }
}
