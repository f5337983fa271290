/**
 * Telemetry extraction of the router monitor: the fixed search patterns that
 * read CPU load, memory use and uptime out of router command output, each
 * hand-coded as an anchored matcher, a leftmost search over them, and the
 * ordered first-match parsers built on that search. Also the uptime
 * normaliser, as a specification function and as the loop that computes it.
 */
module RouterStatsParse {
  import opened Wrappers
  import opened Text

  /**
   * The patterns searched for, in the order the parsers list them.
   * CPU: the five-second utilisation line, a "CPU Total" line, a
   * "Processor load:" line, an N-minute "CPU Load" line. Memory: a
   * "Processor" pool row, and rows of three kilobyte or megabyte figures.
   * Uptime: "uptime is …", "System uptime: …", "Uptime: …", "Router uptime: …".
   */
  datatype Pattern =
    | CpuFiveSeconds | CpuTotal | ProcessorLoad | CpuLoadMinutes
    | MemProcessor | MemKilobytes | MemMegabytes
    | UptimeIs | SystemUptime | UptimeLabel | RouterUptime

  const CpuPatterns: seq<Pattern> := [CpuFiveSeconds, CpuTotal, ProcessorLoad, CpuLoadMinutes]
  const MemoryPatterns: seq<Pattern> := [MemProcessor, MemKilobytes, MemMegabytes]
  const UptimePatterns: seq<Pattern> := [UptimeIs, SystemUptime, UptimeLabel, RouterUptime]

  /** The number of capture groups of a pattern. */
  function Arity(p: Pattern): nat {
    match p
    case MemProcessor | MemKilobytes | MemMegabytes => 3
    case _ => 1
  }

  /** Patterns whose groups are numbers. */
  predicate Numeric(p: Pattern) {
    !(p.UptimeIs? || p.SystemUptime? || p.UptimeLabel? || p.RouterUptime?)
  }

  predicate IsNumeral(d: string) {
    |d| > 0 && forall k | 0 <= k < |d| :: IsDigit(d[k])
  }

  /** The decimal value of a string of digits. */
  function Value(d: string): nat
    requires forall k | 0 <= k < |d| :: IsDigit(d[k])
  {
    if d == [] then 0
    else
      assert IsDigit(d[|d| - 1]);
      Value(d[..|d| - 1]) * 10 + (d[|d| - 1] as int - '0' as int)
  }

  predicate NotNewline(c: char) { c != '\n' }

  /** The literal `lit` at `i`: the position after it. */
  function Lit(s: string, i: nat, lit: string): (r: Option<nat>)
    requires i <= |s|
    ensures r.Some? ==> r.value == i + |lit| <= |s|
  {
    if StartsWith(s[i..], lit) then Some(i + |lit|) else None
  }

  /** One or more `p`-characters at `i`, taken greedily: the position after them. */
  function Run(s: string, i: nat, p: char -> bool): (r: Option<nat>)
    requires i <= |s|
    ensures r.Some? ==> i < r.value <= |s| && forall k | i <= k < r.value :: p(s[k])
  {
    var j := SpanEnd(s, i, p);
    if j > i then Some(j) else None
  }

  /** A run of digits at `i`, as a capture: the position after it. */
  function Digits(s: string, i: nat): (r: Option<nat>)
    requires i <= |s|
    ensures r.Some? ==> i < r.value <= |s| && IsNumeral(s[i..r.value])
  {
    var j :- Run(s, i, IsDigit);
    assert forall k | 0 <= k < j - i :: s[i..j][k] == s[i + k];
    Some(j)
  }

  /** A captured `.+` at `i`: the rest of the line, which must not be empty. */
  function RestOfLine(s: string, i: nat): Option<string>
    requires i <= |s|
  {
    var e :- Run(s, i, NotNewline);
    Some(s[i..e])
  }

  /**
   * Whitespace then a captured `.+` at `i`. The whitespace run is taken
   * greedily; if nothing but a line end follows it, the matcher gives back
   * whitespace characters one at a time until `.+` can start.
   */
  function SpacesThenRest(s: string, i: nat): Option<string>
    requires i <= |s|
  {
    var b :- Run(s, i, IsSpace);
    BackOff(s, i, b)
  }

  function BackOff(s: string, i: nat, k: nat): Option<string>
    requires i < k <= |s|
    decreases k
  {
    var here := RestOfLine(s, k);
    if here.Some? || k == i + 1 then here else BackOff(s, i, k - 1)
  }

  /** A lazy `.*?` then captured digits then '%': the first place on the line where digits end at a '%'. */
  function LazyDigitsPercent(s: string, j: nat): (r: Option<string>)
    requires j <= |s|
    ensures r.Some? ==> IsNumeral(r.value)
    decreases |s| - j
  {
    var e := SpanEnd(s, j, IsDigit);
    if e > j && e < |s| && s[e] == '%' then Some(s[j..e])
    else if j == |s| || s[j] == '\n' then None
    else LazyDigitsPercent(s, j + 1)
  }

  /** The one or three numeral groups of a numeric pattern, as a statement about every group. */
  lemma Numerals(m: Option<seq<string>>)
    requires m.Some? ==> || (|m.value| == 1 && IsNumeral(m.value[0]))
                         || (|m.value| == 3 && IsNumeral(m.value[0]) && IsNumeral(m.value[1]) && IsNumeral(m.value[2]))
    ensures m.Some? ==> forall k | 0 <= k < |m.value| :: IsNumeral(m.value[k])
  {
  }

  /** Three digit groups, each followed by `unit`, separated by whitespace. */
  function DigitTriple(s: string, i: nat, unit: char): (m: Option<seq<string>>)
    requires i <= |s|
    ensures m.Some? ==> |m.value| == 3 && IsNumeral(m.value[0]) && IsNumeral(m.value[1]) && IsNumeral(m.value[2])
  {
    var a :- Digits(s, i);
    var a' :- Lit(s, a, [unit]);
    var b :- Run(s, a', IsSpace);
    var c :- Digits(s, b);
    var c' :- Lit(s, c, [unit]);
    var d :- Run(s, c', IsSpace);
    var e :- Digits(s, d);
    var _ :- Lit(s, e, [unit]);
    Some([s[i..a], s[b..c], s[d..e]])
  }

  function FiveSecondsAt(s: string, i: nat): (m: Option<seq<string>>)
    requires i <= |s|
    ensures m.Some? ==> |m.value| == 1 && IsNumeral(m.value[0])
  {
    var a :- Lit(s, i, "CPU utilization for five seconds: ");
    var b :- Digits(s, a);
    var _ :- Lit(s, b, "%/");
    Some([s[a..b]])
  }

  function CpuTotalAt(s: string, i: nat): (m: Option<seq<string>>)
    requires i <= |s|
    ensures m.Some? ==> |m.value| == 1 && IsNumeral(m.value[0])
  {
    var a :- Lit(s, i, "CPU Total");
    var d :- LazyDigitsPercent(s, a);
    Some([d])
  }

  function ProcessorLoadAt(s: string, i: nat): (m: Option<seq<string>>)
    requires i <= |s|
    ensures m.Some? ==> |m.value| == 1 && IsNumeral(m.value[0])
  {
    var a :- Lit(s, i, "Processor load:");
    var b :- Run(s, a, IsSpace);
    var c :- Digits(s, b);
    var _ :- Lit(s, c, "%");
    Some([s[b..c]])
  }

  function LoadMinutesAt(s: string, i: nat): (m: Option<seq<string>>)
    requires i <= |s|
    ensures m.Some? ==> |m.value| == 1 && IsNumeral(m.value[0])
  {
    var a :- Lit(s, i, "CPU Load ");
    var b :- Digits(s, a);
    var c :- Lit(s, b, " minutes:");
    var d :- Run(s, c, IsSpace);
    var e :- Digits(s, d);
    var _ :- Lit(s, e, "%");
    Some([s[d..e]])
  }

  /** A "Processor" row: a pool name, then three whitespace-separated numbers. */
  function ProcessorRowAt(s: string, i: nat): (m: Option<seq<string>>)
    requires i <= |s|
    ensures m.Some? ==> |m.value| == 3 && IsNumeral(m.value[0]) && IsNumeral(m.value[1]) && IsNumeral(m.value[2])
  {
    var a :- Lit(s, i, "Processor");
    var b :- Run(s, a, IsSpace);
    var c :- Run(s, b, IsNotSpace);
    var d :- Run(s, c, IsSpace);
    var e :- Digits(s, d);
    var f :- Run(s, e, IsSpace);
    var g :- Digits(s, f);
    var h :- Run(s, g, IsSpace);
    var k :- Digits(s, h);
    Some([s[d..e], s[f..g], s[h..k]])
  }

  /** A literal label then whitespace then the captured rest of the line. */
  function LabelledRestAt(s: string, i: nat, tag: string): (m: Option<seq<string>>)
    requires i <= |s|
    ensures m.Some? ==> |m.value| == 1
  {
    var a :- Lit(s, i, tag);
    var r :- SpacesThenRest(s, a);
    Some([r])
  }

  function UptimeIsAt(s: string, i: nat): (m: Option<seq<string>>)
    requires i <= |s|
    ensures m.Some? ==> |m.value| == 1
  {
    var a :- Lit(s, i, "uptime is ");
    var r :- RestOfLine(s, a);
    Some([r])
  }

  /**
   * The pattern matched at exactly position `i`, with its groups. For the
   * five-second CPU line the source's group also holds the '%' sign, which
   * the CPU parser deletes again; the group here is the digits alone.
   */
  function MatchAt(p: Pattern, s: string, i: nat): (m: Option<seq<string>>)
    requires i <= |s|
    ensures m.Some? ==> |m.value| == Arity(p)
    ensures m.Some? && Numeric(p) ==> forall i | 0 <= i < |m.value| :: IsNumeral(m.value[i])
  {
    match p
    case CpuFiveSeconds => var m := FiveSecondsAt(s, i); Numerals(m); m
    case CpuTotal => var m := CpuTotalAt(s, i); Numerals(m); m
    case ProcessorLoad => var m := ProcessorLoadAt(s, i); Numerals(m); m
    case CpuLoadMinutes => var m := LoadMinutesAt(s, i); Numerals(m); m
    case MemProcessor => var m := ProcessorRowAt(s, i); Numerals(m); m
    case MemKilobytes => var m := DigitTriple(s, i, 'K'); Numerals(m); m
    case MemMegabytes => var m := DigitTriple(s, i, 'M'); Numerals(m); m
    case UptimeIs => UptimeIsAt(s, i)
    case SystemUptime => LabelledRestAt(s, i, "System uptime:")
    case UptimeLabel => LabelledRestAt(s, i, "Uptime:")
    case RouterUptime => LabelledRestAt(s, i, "Router uptime:")
  }

  /** The first position from `i` up to `n` at which `m` finds a match. */
  function SearchFrom(m: nat -> Option<seq<string>>, n: nat, i: nat): Option<(nat, seq<string>)>
    requires i <= n
    decreases n - i
  {
    match m(i)
    case Some(g) => Some((i, g))
    case None => if i == n then None else SearchFrom(m, n, i + 1)
  }

  lemma {:induction false} SearchFromIsLeftmost(m: nat -> Option<seq<string>>, n: nat, i: nat)
    requires i <= n
    ensures SearchFrom(m, n, i).Some? ==>
      var (j, g) := SearchFrom(m, n, i).value;
      i <= j <= n && m(j) == Some(g) && forall k | i <= k < j :: m(k).None?
    ensures SearchFrom(m, n, i).None? ==> forall k | i <= k <= n :: m(k).None?
    decreases n - i
  {
    if m(i).None? && i < n {
      SearchFromIsLeftmost(m, n, i + 1);
    }
  }

  /** `re.search`: the leftmost position at which the pattern matches, and its groups there. */
  function Search(p: Pattern, s: string): (r: Option<(nat, seq<string>)>)
    ensures r.Some? ==> |r.value.1| == Arity(p)
    ensures r.Some? && Numeric(p) ==> forall i | 0 <= i < |r.value.1| :: IsNumeral(r.value.1[i])
  {
    var m := (k: nat) => if k <= |s| then MatchAt(p, s, k) else None;
    SearchFromIsLeftmost(m, |s|, 0);
    SearchFrom(m, |s|, 0)
  }

  /** The search finds the leftmost position at which the pattern matches, and nothing only when it matches nowhere. */
  lemma SearchIsLeftmost(p: Pattern, s: string)
    ensures var r := Search(p, s);
      && (r.Some? ==> var (j, g) := r.value;
            j <= |s| && MatchAt(p, s, j) == Some(g) && forall k | 0 <= k < j :: MatchAt(p, s, k).None?)
      && (r.None? ==> forall k | 0 <= k <= |s| :: MatchAt(p, s, k).None?)
  {
    var m := (k: nat) => if k <= |s| then MatchAt(p, s, k) else None;
    assert forall k: nat | k <= |s| :: m(k) == MatchAt(p, s, k);
    SearchFromIsLeftmost(m, |s|, 0);
  }

  function Groups(p: Pattern, s: string): (g: seq<string>)
    requires Search(p, s).Some?
    ensures |g| == Arity(p)
    ensures Numeric(p) ==> forall i | 0 <= i < |g| :: IsNumeral(g[i])
  {
    Search(p, s).value.1
  }

  /** Pattern `k` of `ps` is the first in list order that occurs anywhere in `s`. */
  predicate Decides(ps: seq<Pattern>, s: string, k: int) {
    && 0 <= k < |ps|
    && Search(ps[k], s).Some?
    && forall j | 0 <= j < k :: Search(ps[j], s).None?
  }

  predicate NoneOccurs(ps: seq<Pattern>, s: string) {
    forall k | 0 <= k < |ps| :: Search(ps[k], s).None?
  }

  /** The first pattern of `ps`, in list order, that occurs in `s`, with its groups. */
  function FirstOf(ps: seq<Pattern>, s: string): (r: Option<(nat, seq<string>)>)
    ensures r.Some? ==> Decides(ps, s, r.value.0) && r.value.1 == Groups(ps[r.value.0], s)
    ensures r.None? ==> NoneOccurs(ps, s)
  {
    var found := seq(|ps|, k requires 0 <= k < |ps| => Search(ps[k], s));
    assert forall j | 0 <= j < |ps| :: found[j] == Search(ps[j], s);
    match FirstSome(found, 0)
    case Some((k, m)) => Some((k, m.1))
    case None => None
  }

  /** The first index from `i` on at which `xs` holds a value, with that value. */
  function FirstSome<T>(xs: seq<Option<T>>, i: nat): (r: Option<(nat, T)>)
    requires i <= |xs|
    ensures r.Some? ==> i <= r.value.0 < |xs| && xs[r.value.0] == Some(r.value.1)
    ensures r.Some? ==> forall j | i <= j < r.value.0 :: xs[j].None?
    ensures r.None? ==> forall j | i <= j < |xs| :: xs[j].None?
    decreases |xs| - i
  {
    if i == |xs| then None
    else match xs[i]
      case Some(x) => Some((i, x))
      case None => FirstSome(xs, i + 1)
  }

  lemma DecidesIsUnique(ps: seq<Pattern>, s: string, k: int)
    requires Decides(ps, s, k)
    ensures forall k' | Decides(ps, s, k') :: k' == k
  {
  }

  /**
   * `_parse_cpu`: the value of the first CPU pattern, in list order, that
   * occurs anywhere in the text, even if a later pattern occurs earlier in it.
   */
  function ParseCpu(output: string): (r: Result<nat>)
    ensures forall k | Decides(CpuPatterns, output, k) :: r == Ok(Value(Groups(CpuPatterns[k], output)[0]))
    ensures NoneOccurs(CpuPatterns, output) ==> r == Err("CPU data not found in output")
  {
    match FirstOf(CpuPatterns, output)
    case Some((k, _)) =>
      DecidesIsUnique(CpuPatterns, output, k);
      assert Numeric(CpuPatterns[k]);
      Ok(Value(Groups(CpuPatterns[k], output)[0]))
    case None => Err("CPU data not found in output")
  }

  /** Used memory as a percentage of the total. */
  function Percent(used: nat, total: nat): real
    requires total > 0
  {
    used as real / total as real * 100.0
  }

  lemma PercentRange(used: nat, total: nat)
    requires total > 0
    ensures Percent(used, total) >= 0.0
    ensures Percent(used, total) <= 100.0 <==> used <= total
  {
    var q := used as real / total as real;
    assert q * total as real == used as real;
    if used <= total {
      assert q <= 1.0;
    } else {
      assert q > 1.0;
    }
  }

  /**
   * `_parse_memory`: from the first memory pattern, in list order, that
   * occurs, group 1 is the total and group 2 the used amount. A zero total
   * fails at once, without trying the later patterns. The percentage is not
   * clamped.
   */
  function ParseMemory(output: string): (r: Result<real>)
    ensures forall k | Decides(MemoryPatterns, output, k) :: r == MemoryFigure(Groups(MemoryPatterns[k], output))
    ensures NoneOccurs(MemoryPatterns, output) ==> r == Err("Memory data not found in output")
  {
    match FirstOf(MemoryPatterns, output)
    case Some((k, _)) =>
      DecidesIsUnique(MemoryPatterns, output, k);
      assert Numeric(MemoryPatterns[k]);
      MemoryFigure(Groups(MemoryPatterns[k], output))
    case None => Err("Memory data not found in output")
  }

  /** What `_parse_memory` makes of the groups of a matched row: total, used, free. */
  function MemoryFigure(g: seq<string>): (r: Result<real>)
    requires |g| == 3 && IsNumeral(g[0]) && IsNumeral(g[1]) && IsNumeral(g[2])
    ensures Value(g[0]) == 0 <==> r == Err("Invalid memory values")
    ensures Value(g[0]) > 0 ==> r == Ok(Percent(Value(g[1]), Value(g[0])))
  {
    var total := Value(g[0]);
    if total == 0 then Err("Invalid memory values") else Ok(Percent(Value(g[1]), total))
  }

  /** A unit word of the uptime text and the letter that replaces it. */
  datatype UnitRule = UnitRule(word: string, letter: char)

  const UptimeRules: seq<UnitRule> :=
    [UnitRule("year", 'y'), UnitRule("week", 'w'), UnitRule("day", 'd'), UnitRule("hour", 'h'), UnitRule("minute", 'm')]

  /**
   * A count-and-unit phrase at the start of `s`: digits, one space, the unit
   * word and an optional plural 's'. Gives the length of the digits and of
   * the whole phrase.
   */
  function UnitAt(s: string, word: string): (r: Option<(nat, nat)>)
    ensures r.Some? ==> 0 < r.value.0 < r.value.1 <= |s|
  {
    var d := SpanEnd(s, 0, IsDigit);
    if d > 0 && StartsWith(s[d..], [' '] + word) then
      var e := d + 1 + |word|;
      Some((d, if e < |s| && s[e] == 's' then e + 1 else e))
    else None
  }

  /** One substitution of `_format_uptime`: each count-and-unit phrase, left to right, becomes the count and the unit letter. */
  function Abbreviate(s: string, rule: UnitRule): string
    decreases |s|
  {
    if s == [] then []
    else match UnitAt(s, rule.word)
      case Some((d, e)) => s[..d] + [rule.letter] + Abbreviate(s[e..], rule)
      case None => [s[0]] + Abbreviate(s[1..], rule)
  }

  function ApplyRules(s: string, rules: seq<UnitRule>): string
    decreases |rules|
  {
    if rules == [] then s else ApplyRules(Abbreviate(s, rules[0]), rules[1..])
  }

  /**
   * `_format_uptime`: the five unit substitutions in order, then every comma
   * deleted and the outer whitespace stripped. Inner spaces stay.
   */
  function NormalizeUptime(raw: string): (r: string)
    ensures ',' !in r
    ensures r == [] || (!IsSpace(r[0]) && !IsSpace(r[|r| - 1]))
  {
    var t := Remove(ApplyRules(raw, UptimeRules), ',');
    Strip(t)
  }

  /** The loop of `_format_uptime`, rebinding the text once per substitution. */
  method FormatUptime(raw: string) returns (r: string)
    ensures r == NormalizeUptime(raw)
  {
    r := raw;
    for i := 0 to |UptimeRules|
      invariant ApplyRules(r, UptimeRules[i..]) == ApplyRules(raw, UptimeRules)
    {
      assert UptimeRules[i..][1..] == UptimeRules[i + 1..];
      r := Abbreviate(r, UptimeRules[i]);
    }
    r := Strip(Remove(r, ','));
  }

  /**
   * `_parse_uptime`: never fails. The normalised capture of the first uptime
   * pattern, in list order, that occurs, or "N/A" when none does.
   */
  function ParseUptime(output: string): (r: string)
    ensures forall k | Decides(UptimePatterns, output, k) :: r == NormalizeUptime(Groups(UptimePatterns[k], output)[0])
    ensures NoneOccurs(UptimePatterns, output) ==> r == "N/A"
  {
    match FirstOf(UptimePatterns, output)
    case Some((k, g)) =>
      DecidesIsUnique(UptimePatterns, output, k);
      NormalizeUptime(g[0])
    case None => "N/A"
  }

  /** A character that is not a digit cannot start a unit phrase: it is copied, and substitution resumes after it. */
  lemma AbbreviateSkips(s: string, rule: UnitRule)
    requires s != [] && !IsDigit(s[0])
    ensures Abbreviate(s, rule) == [s[0]] + Abbreviate(s[1..], rule)
  {
    assert SpanEnd(s, 0, IsDigit) == 0;
  }

  /**
   * A count, a maximal run of digits, followed by a space and the rule's
   * unit becomes the count and the unit's letter; an `s` right after the
   * unit is taken as its plural, and substitution resumes after the phrase.
   */
  lemma AbbreviatesCount(s: string, rule: UnitRule, d: nat, e: nat)
    requires 0 < d <= |s| && IsNumeral(s[..d]) && StartsWith(s[d..], [' '] + rule.word)
    requires e == if d + 1 + |rule.word| < |s| && s[d + 1 + |rule.word|] == 's' then d + 2 + |rule.word| else d + 1 + |rule.word|
    ensures Abbreviate(s, rule) == s[..d] + [rule.letter] + Abbreviate(s[e..], rule)
  {
    CountUnit(s, rule.word, d, e);
  }

  lemma CountUnit(s: string, word: string, d: nat, e: nat)
    requires 0 < d <= |s| && IsNumeral(s[..d]) && StartsWith(s[d..], [' '] + word)
    requires e == if d + 1 + |word| < |s| && s[d + 1 + |word|] == 's' then d + 2 + |word| else d + 1 + |word|
    ensures UnitAt(s, word) == Some((d, e))
  {
    assert s[d] == s[d..][0] == ' ';
    DigitsUpTo(s, d);
  }

  /** The digit run at the start of `s` ends at `d` when `s[..d]` is a numeral not followed by a digit. */
  lemma DigitsUpTo(s: string, d: nat)
    requires 0 < d <= |s| && IsNumeral(s[..d]) && (d == |s| || !IsDigit(s[d]))
    ensures SpanEnd(s, 0, IsDigit) == d
  {
    assert forall k | 0 <= k < d :: s[..d][k] == s[k];
  }

  /**
   * A count that is not followed by a space and the rule's unit is copied
   * unchanged, and substitution resumes after it: no phrase starts at any
   * of its digits.
   */
  lemma {:induction false} AbbreviateKeepsCount(s: string, rule: UnitRule, d: nat)
    requires 0 < d <= |s| && IsNumeral(s[..d]) && (d == |s| || !IsDigit(s[d]))
    requires !StartsWith(s[d..], [' '] + rule.word)
    ensures Abbreviate(s, rule) == s[..d] + Abbreviate(s[d..], rule)
    decreases d, 1
  {
    calc {
      Abbreviate(s, rule);
      { DigitsUpTo(s, d); }
      [s[0]] + Abbreviate(s[1..], rule);
      { KeepsCountRest(s, rule, d); }
      [s[0]] + (s[1..d] + Abbreviate(s[d..], rule));
      { Assoc([s[0]], s[1..d], Abbreviate(s[d..], rule)); }
      ([s[0]] + s[1..d]) + Abbreviate(s[d..], rule);
      { assert [s[0]] + s[1..d] == s[..d]; }
      s[..d] + Abbreviate(s[d..], rule);
    }
  }

  /** The digits after the first of a count are kept the same way. */
  lemma {:induction false} KeepsCountRest(s: string, rule: UnitRule, d: nat)
    requires 0 < d <= |s| && IsNumeral(s[..d]) && (d == |s| || !IsDigit(s[d]))
    requires !StartsWith(s[d..], [' '] + rule.word)
    ensures Abbreviate(s[1..], rule) == s[1..d] + Abbreviate(s[d..], rule)
    decreases d, 0
  {
    if d > 1 {
      var t := s[1..];
      assert t[..d - 1] == s[..d][1..];
      assert t[d - 1..] == s[d..];
      AbbreviateKeepsCount(t, rule, d - 1);
    } else {
      assert s[1..d] == [] && s[1..] == s[d..];
    }
  }

  /**
   * A prefix in which no count is followed by a space and the unit's first
   * letter, and which ends in neither a digit nor a space, is copied
   * unchanged whatever follows it.
   */
  lemma {:induction false} AbbreviateKeepsPrefix(a: string, b: string, rule: UnitRule)
    requires rule.word != [] && a != [] && !IsDigit(a[|a| - 1]) && a[|a| - 1] != ' '
    requires NoPhrase(a, rule.word[0])
    ensures Abbreviate(a + b, rule) == a + Abbreviate(b, rule)
    decreases |a|, 1
  {
    calc {
      Abbreviate(a + b, rule);
      { PrefixNoUnit(a, b, rule.word);
        assert (a + b)[0] == a[0] && (a + b)[1..] == a[1..] + b; }
      [a[0]] + Abbreviate(a[1..] + b, rule);
      { KeepsPrefixRest(a, b, rule); }
      [a[0]] + (a[1..] + Abbreviate(b, rule));
      { Assoc([a[0]], a[1..], Abbreviate(b, rule)); }
      ([a[0]] + a[1..]) + Abbreviate(b, rule);
      { assert [a[0]] + a[1..] == a; }
      a + Abbreviate(b, rule);
    }
  }

  /** The prefix after its first character is kept the same way. */
  lemma {:induction false} KeepsPrefixRest(a: string, b: string, rule: UnitRule)
    requires rule.word != [] && a != [] && !IsDigit(a[|a| - 1]) && a[|a| - 1] != ' '
    requires NoPhrase(a, rule.word[0])
    ensures Abbreviate(a[1..] + b, rule) == a[1..] + Abbreviate(b, rule)
    decreases |a|, 0
  {
    if |a| > 1 {
      NoPhraseTail(a, rule.word[0]);
      assert a[1..][|a| - 2] == a[|a| - 1];
      AbbreviateKeepsPrefix(a[1..], b, rule);
    } else {
      assert a[1..] == [] && a[1..] + b == b;
    }
  }

  lemma Assoc(a: string, b: string, c: string)
    ensures a + (b + c) == (a + b) + c
  {
  }

  lemma PrefixNoUnit(a: string, b: string, word: string)
    requires word != [] && a != [] && !IsDigit(a[|a| - 1]) && a[|a| - 1] != ' '
    requires NoPhrase(a, word[0])
    ensures UnitAt(a + b, word).None?
  {
    var s := a + b;
    var d := SpanEnd(s, 0, IsDigit);
    assert s[|a| - 1] == a[|a| - 1];
    assert d < |a|;
    if d > 0 && d + 1 < |a| && s[d] == ' ' {
      assert IsDigit(s[d - 1]) && s[d - 1] == a[d - 1];
      assert a[d] == ' ';
      assert s[d + 1] == a[d + 1] != word[0];
      assert s[d..][1] == s[d + 1];
    }
  }

  /** Text in which no digit, space pair is followed by the first letter of the rule's unit is left as it is. */
  lemma {:induction false} AbbreviateNoPhrase(s: string, rule: UnitRule)
    requires rule.word != [] && NoPhrase(s, rule.word[0])
    ensures Abbreviate(s, rule) == s
    decreases |s|
  {
    if s != [] {
      NoPhraseHere(s, rule.word);
      NoPhraseTail(s, rule.word[0]);
      AbbreviateNoPhrase(s[1..], rule);
      assert s == [s[0]] + s[1..];
    }
  }

  /** No digit, space pair in `s` is followed by `initial`. */
  predicate NoPhrase(s: string, initial: char) {
    forall k | 0 <= k < |s| - 2 :: IsDigit(s[k]) && s[k + 1] == ' ' ==> s[k + 2] != initial
  }

  lemma NoPhraseTail(s: string, initial: char)
    requires s != [] && NoPhrase(s, initial)
    ensures NoPhrase(s[1..], initial)
  {
    assert forall k | 0 <= k < |s| - 1 :: s[1..][k] == s[k + 1];
  }

  lemma NoPhraseHere(s: string, word: string)
    requires word != [] && NoPhrase(s, word[0])
    ensures UnitAt(s, word).None?
  {
    var d := SpanEnd(s, 0, IsDigit);
    if d > 0 && d + 1 < |s| && s[d] == ' ' {
      assert IsDigit(s[d - 1]);
      assert s[d + 1] != word[0];
      assert s[d..][1] == s[d + 1];
    }
  }
}
