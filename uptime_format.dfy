/**
 * What the substitutions of `_format_uptime` do to an uptime written the way
 * routers report it: counts of years, weeks and days, each unit singular or
 * plural, separated by ", ". Each substitution is followed phrase by phrase,
 * then the comma removal and the stripping.
 */
module UptimeFormat {
  import opened Text
  import opened RouterStatsParse

  /** The optional plural 's' of a unit. */
  function Plural(p: bool): string {
    if p then "s" else ""
  }

  predicate NoDigits(s: string) {
    forall k | 0 <= k < |s| :: !IsDigit(s[k])
  }

  /** Text without digits holds no count, so a substitution leaves it as it is. */
  lemma AbbreviateNoDigits(s: string, rule: UnitRule)
    requires rule.word != [] && NoDigits(s)
    ensures Abbreviate(s, rule) == s
  {
    AbbreviateNoPhrase(s, rule);
  }

  /**
   * A comma cannot be part of a count-and-unit phrase, so a substitution
   * works on the text up to a comma and on the text after it separately.
   */
  lemma {:induction false} AbbreviateSplit(a: string, b: string, rule: UnitRule)
    requires a != [] && a[|a| - 1] == ',' && ',' !in rule.word
    ensures Abbreviate(a + b, rule) == Abbreviate(a, rule) + Abbreviate(b, rule)
    decreases |a|, 1
  {
    UnitAtSplit(a, b, rule.word);
    if UnitAt(a, rule.word).Some? {
      SplitAfterPhrase(a, b, rule);
    } else {
      SplitAfterChar(a, b, rule);
    }
  }

  lemma {:induction false} SplitAfterPhrase(a: string, b: string, rule: UnitRule)
    requires a != [] && a[|a| - 1] == ',' && ',' !in rule.word
    requires UnitAt(a + b, rule.word) == UnitAt(a, rule.word) && UnitAt(a, rule.word).Some?
    requires UnitAt(a, rule.word).value.1 < |a|
    ensures Abbreviate(a + b, rule) == Abbreviate(a, rule) + Abbreviate(b, rule)
    decreases |a|, 0
  {
    var s := a + b;
    var d, e := UnitAt(a, rule.word).value.0, UnitAt(a, rule.word).value.1;
    var a' := a[e..];
    assert s[..d] == a[..d];
    assert s[e..] == a' + b;
    assert a'[|a'| - 1] == a[|a| - 1];
    var head := a[..d] + [rule.letter];
    assert Abbreviate(s, rule) == head + Abbreviate(a' + b, rule);
    assert Abbreviate(a, rule) == head + Abbreviate(a', rule);
    AbbreviateSplit(a', b, rule);
    Assoc(head, Abbreviate(a', rule), Abbreviate(b, rule));
  }

  lemma {:induction false} SplitAfterChar(a: string, b: string, rule: UnitRule)
    requires a != [] && a[|a| - 1] == ',' && ',' !in rule.word
    requires UnitAt(a + b, rule.word) == UnitAt(a, rule.word) && UnitAt(a, rule.word).None?
    ensures Abbreviate(a + b, rule) == Abbreviate(a, rule) + Abbreviate(b, rule)
    decreases |a|, 0
  {
    var a' := a[1..];
    calc {
      Abbreviate(a + b, rule);
      { assert (a + b)[0] == a[0] && (a + b)[1..] == a' + b; }
      [a[0]] + Abbreviate(a' + b, rule);
      { SplitRest(a', b, rule); }
      [a[0]] + (Abbreviate(a', rule) + Abbreviate(b, rule));
      { Assoc([a[0]], Abbreviate(a', rule), Abbreviate(b, rule)); }
      ([a[0]] + Abbreviate(a', rule)) + Abbreviate(b, rule);
      Abbreviate(a, rule) + Abbreviate(b, rule);
    }
  }

  /** The remainder after one kept character splits too: it is either empty or still ends in the comma. */
  lemma {:induction false} SplitRest(a': string, b: string, rule: UnitRule)
    requires (a' == [] || a'[|a'| - 1] == ',') && ',' !in rule.word
    ensures Abbreviate(a' + b, rule) == Abbreviate(a', rule) + Abbreviate(b, rule)
    decreases |a'|, 2
  {
    if a' == [] {
      assert a' + b == b;
    } else {
      AbbreviateSplit(a', b, rule);
    }
  }

  lemma UnitAtSplit(a: string, b: string, w: string)
    requires a != [] && a[|a| - 1] == ',' && ',' !in w
    ensures UnitAt(a + b, w) == UnitAt(a, w)
    ensures UnitAt(a, w).Some? ==> UnitAt(a, w).value.1 < |a|
  {
    var s := a + b;
    var d := SpanEnd(a, 0, IsDigit);
    assert d < |a|;
    assert forall k | 0 <= k <= d :: s[k] == a[k];
    assert SpanEnd(s, 0, IsDigit) == d;
    var p := [' '] + w;
    var e := d + 1 + |w|;
    if e <= |a| {
      assert s[d..][..|p|] == a[d..][..|p|];
      if e < |a| {
        assert s[e] == a[e];
      }
      if StartsWith(a[d..], p) {
        assert a[e - 1] == a[d..][|p| - 1] == p[|p| - 1] != ',';
      }
    } else {
      var i := |a| - 1 - d;
      assert p[i] != ',' by {
        if i > 0 {
          assert p[i] == w[i - 1];
        }
      }
      assert |s| - d < |p| || s[d..][..|p|][i] != p[i];
    }
  }

  /** A count followed by the rule's own unit, then text without digits that is empty or starts with a comma. */
  lemma OwnPhrase(n: string, rule: UnitRule, p: bool, tail: string)
    requires IsNumeral(n) && rule.word != [] && NoDigits(tail) && (tail == [] || tail[0] == ',')
    ensures Abbreviate(n + [' '] + rule.word + Plural(p) + tail, rule) == n + [rule.letter] + tail
  {
    var s := n + [' '] + rule.word + Plural(p) + tail;
    var d := |n|;
    var e := d + 1 + |rule.word| + |Plural(p)|;
    assert s[..d] == n;
    assert s[d..][..1 + |rule.word|] == [' '] + rule.word;
    if p {
      assert s[d + 1 + |rule.word|] == 's';
    } else if d + 1 + |rule.word| < |s| {
      assert s[d + 1 + |rule.word|] == tail[0];
    }
    AbbreviatesCount(s, rule, d, e);
    assert s[e..] == tail;
    AbbreviateNoDigits(tail, rule);
  }

  /** A count followed by a space and text without digits that does not start with the rule's unit is left as it is. */
  lemma OtherPhrase(n: string, rest: string, rule: UnitRule)
    requires IsNumeral(n) && rule.word != [] && rest != [] && rest[0] == ' ' && NoDigits(rest)
    requires !StartsWith(rest, [' '] + rule.word)
    ensures Abbreviate(n + rest, rule) == n + rest
  {
    var s := n + rest;
    assert s[..|n|] == n && s[|n|..] == rest;
    AbbreviateKeepsCount(s, rule, |n|);
    AbbreviateNoDigits(rest, rule);
  }

  /** A count already replaced by its unit letter is left as it is. */
  lemma DonePhrase(n: string, rest: string, rule: UnitRule)
    requires IsNumeral(n) && rule.word != [] && rest != [] && rest[0] != ' ' && NoDigits(rest)
    ensures Abbreviate(n + rest, rule) == n + rest
  {
    var s := n + rest;
    assert s[..|n|] == n && s[|n|..] == rest;
    AbbreviateKeepsCount(s, rule, |n|);
    AbbreviateNoDigits(rest, rule);
  }

  /** A leading space is copied. */
  lemma LeadingSpace(x: string, rule: UnitRule)
    ensures Abbreviate([' '] + x, rule) == [' '] + Abbreviate(x, rule)
  {
    var s := [' '] + x;
    AbbreviateSkips(s, rule);
    assert s[1..] == x;
  }

  /** "n unit" or "n units". */
  function Phrase(n: string, rule: UnitRule, plural: bool): string {
    n + [' '] + rule.word + Plural(plural)
  }

  /** The count followed by the unit's letter. */
  function Short(n: string, rule: UnitRule): string {
    n + [rule.letter]
  }

  /** A phrase with a comma after it, for the first two units. */
  function Item(n: string, rule: UnitRule, plural: bool): string {
    Phrase(n, rule, plural) + ","
  }

  /** The same, once substituted. */
  function ShortItem(n: string, rule: UnitRule): string {
    Short(n, rule) + ","
  }

  /** A unit word: letters only, so never a digit, a space or a comma. */
  predicate IsUnit(rule: UnitRule) {
    && rule.word != [] && NoDigits(rule.word) && ' ' !in rule.word && ',' !in rule.word
    && !IsDigit(rule.letter) && rule.letter != ' '
  }

  lemma UptimeUnits()
    ensures forall i | 0 <= i < |UptimeRules| :: IsUnit(UptimeRules[i])
  {
  }

  lemma PhraseFacts(n: string, rule: UnitRule, plural: bool)
    requires IsNumeral(n) && IsUnit(rule)
    ensures var rest := Phrase(n, rule, plural)[|n|..];
      && Phrase(n, rule, plural) == n + rest
      && rest == [' '] + rule.word + Plural(plural)
      && NoDigits(rest) && rest[1] == rule.word[0]
  {
    var rest := [' '] + rule.word + Plural(plural);
    assert Phrase(n, rule, plural) == n + rest;
    assert Phrase(n, rule, plural)[|n|..] == rest;
    NoDigitsAppend([' '] + rule.word, Plural(plural));
  }

  lemma NoDigitsAppend(x: string, y: string)
    requires NoDigits(x) && NoDigits(y)
    ensures NoDigits(x + y)
  {
    assert forall k | 0 <= k < |x + y| :: (x + y)[k] == if k < |x| then x[k] else y[k - |x|];
  }

  /** A phrase of another unit than the rule's is left as it is. */
  lemma OtherUnit(n: string, unit: UnitRule, plural: bool, tail: string, rule: UnitRule)
    requires IsNumeral(n) && IsUnit(unit) && IsUnit(rule) && unit.word[0] != rule.word[0]
    requires NoDigits(tail)
    ensures Abbreviate(Phrase(n, unit, plural) + tail, rule) == Phrase(n, unit, plural) + tail
  {
    PhraseFacts(n, unit, plural);
    var head := Phrase(n, unit, plural)[|n|..];
    calc {
      Abbreviate(Phrase(n, unit, plural) + tail, rule);
      { Assoc(n, head, tail); }
      Abbreviate(n + (head + tail), rule);
      { OtherRest(head, tail, rule); OtherPhrase(n, head + tail, rule); }
      n + (head + tail);
      { Assoc(n, head, tail); }
      Phrase(n, unit, plural) + tail;
    }
  }

  /** What follows the count of another unit's phrase: a space, then no digits and not the rule's unit. */
  lemma OtherRest(head: string, tail: string, rule: UnitRule)
    requires rule.word != [] && |head| >= 2 && head[0] == ' ' && NoDigits(head) && head[1] != rule.word[0]
    requires NoDigits(tail)
    ensures var rest := head + tail;
      rest != [] && rest[0] == ' ' && NoDigits(rest) && !StartsWith(rest, [' '] + rule.word)
  {
    NoDigitsAppend(head, tail);
    assert (head + tail)[1] == head[1];
    assert ([' '] + rule.word)[1] == rule.word[0];
  }

  /** A phrase of the rule's own unit becomes the count and the unit's letter. */
  lemma OwnUnit(n: string, rule: UnitRule, plural: bool, tail: string)
    requires IsNumeral(n) && IsUnit(rule) && NoDigits(tail) && (tail == [] || tail[0] == ',')
    ensures Abbreviate(Phrase(n, rule, plural) + tail, rule) == Short(n, rule) + tail
  {
    OwnPhrase(n, rule, plural, tail);
  }

  /** A count already followed by a unit letter is left as it is. */
  lemma DoneUnit(n: string, unit: UnitRule, tail: string, rule: UnitRule)
    requires IsNumeral(n) && IsUnit(unit) && IsUnit(rule) && NoDigits(tail)
    ensures Abbreviate(Short(n, unit) + tail, rule) == Short(n, unit) + tail
  {
    var rest := [unit.letter] + tail;
    assert Short(n, unit) + tail == n + rest;
    NoDigitsAppend([unit.letter], tail);
    DonePhrase(n, rest, rule);
  }

  /** Three parts separated by single spaces. */
  function Joined(x: string, y: string, z: string): string {
    x + [' '] + y + [' '] + z
  }

  /** When the first two parts end with a comma, a substitution works on each part separately. */
  lemma AbbreviateJoined(x: string, y: string, z: string, rule: UnitRule)
    requires x != [] && x[|x| - 1] == ',' && y != [] && y[|y| - 1] == ',' && ',' !in rule.word
    ensures Abbreviate(Joined(x, y, z), rule) == Joined(Abbreviate(x, rule), Abbreviate(y, rule), Abbreviate(z, rule))
  {
    var y' := [' '] + y;
    var z' := [' '] + z;
    assert Joined(x, y, z) == x + (y' + z');
    assert y'[|y'| - 1] == y[|y| - 1];
    AbbreviateSplit(x, y' + z', rule);
    AbbreviateSplit(y', z', rule);
    LeadingSpace(y, rule);
    LeadingSpace(z, rule);
    var ax, ay, az := Abbreviate(x, rule), Abbreviate(y, rule), Abbreviate(z, rule);
    assert Abbreviate(x + (y' + z'), rule) == ax + (([' '] + ay) + ([' '] + az));
    var sp := [' '];
    calc {
      ax + ((sp + ay) + (sp + az));
      { Assoc(ax, sp + ay, sp + az); }
      (ax + (sp + ay)) + (sp + az);
      { Assoc(ax, sp, ay); }
      ((ax + sp) + ay) + (sp + az);
      { Assoc((ax + sp) + ay, sp, az); }
      Joined(ax, ay, az);
    }
  }

  /** The year substitution: only the year count is shortened. */
  lemma YearStep(a: string, b: string, c: string, py: bool, pw: bool, pd: bool)
    requires IsNumeral(a) && IsNumeral(b) && IsNumeral(c)
    ensures var y, w, d := UptimeRules[0], UptimeRules[1], UptimeRules[2];
      Abbreviate(Joined(Item(a, y, py), Item(b, w, pw), Phrase(c, d, pd)), y)
        == Joined(ShortItem(a, y), Item(b, w, pw), Phrase(c, d, pd))
  {
    UptimeUnits();
    var y, w, d := UptimeRules[0], UptimeRules[1], UptimeRules[2];
    AbbreviateJoined(Item(a, y, py), Item(b, w, pw), Phrase(c, d, pd), y);
    OwnUnit(a, y, py, ",");
    OtherUnit(b, w, pw, ",", y);
    OtherUnit(c, d, pd, [], y);
    assert Phrase(c, d, pd) + [] == Phrase(c, d, pd);
  }

  /** The week substitution: only the week count is shortened. */
  lemma WeekStep(a: string, b: string, c: string, pw: bool, pd: bool)
    requires IsNumeral(a) && IsNumeral(b) && IsNumeral(c)
    ensures var y, w, d := UptimeRules[0], UptimeRules[1], UptimeRules[2];
      Abbreviate(Joined(ShortItem(a, y), Item(b, w, pw), Phrase(c, d, pd)), w)
        == Joined(ShortItem(a, y), ShortItem(b, w), Phrase(c, d, pd))
  {
    UptimeUnits();
    var y, w, d := UptimeRules[0], UptimeRules[1], UptimeRules[2];
    AbbreviateJoined(ShortItem(a, y), Item(b, w, pw), Phrase(c, d, pd), w);
    DoneUnit(a, y, ",", w);
    OwnUnit(b, w, pw, ",");
    OtherUnit(c, d, pd, [], w);
    assert Phrase(c, d, pd) + [] == Phrase(c, d, pd);
  }

  /** The day substitution: only the day count is shortened. */
  lemma DayStep(a: string, b: string, c: string, pd: bool)
    requires IsNumeral(a) && IsNumeral(b) && IsNumeral(c)
    ensures var y, w, d := UptimeRules[0], UptimeRules[1], UptimeRules[2];
      Abbreviate(Joined(ShortItem(a, y), ShortItem(b, w), Phrase(c, d, pd)), d)
        == Joined(ShortItem(a, y), ShortItem(b, w), Short(c, d))
  {
    UptimeUnits();
    var y, w, d := UptimeRules[0], UptimeRules[1], UptimeRules[2];
    AbbreviateJoined(ShortItem(a, y), ShortItem(b, w), Phrase(c, d, pd), d);
    DoneUnit(a, y, ",", d);
    DoneUnit(b, w, ",", d);
    OwnUnit(c, d, pd, []);
    assert Phrase(c, d, pd) + [] == Phrase(c, d, pd);
    assert Short(c, d) + [] == Short(c, d);
  }

  /** Any later substitution leaves shortened counts as they are. */
  lemma LaterStep(a: string, b: string, c: string, rule: UnitRule)
    requires IsNumeral(a) && IsNumeral(b) && IsNumeral(c) && IsUnit(rule)
    ensures var y, w, d := UptimeRules[0], UptimeRules[1], UptimeRules[2];
      var t := Joined(ShortItem(a, y), ShortItem(b, w), Short(c, d));
      Abbreviate(t, rule) == t
  {
    UptimeUnits();
    var y, w, d := UptimeRules[0], UptimeRules[1], UptimeRules[2];
    AbbreviateJoined(ShortItem(a, y), ShortItem(b, w), Short(c, d), rule);
    DoneUnit(a, y, ",", rule);
    DoneUnit(b, w, ",", rule);
    DoneUnit(c, d, [], rule);
    assert Short(c, d) + [] == Short(c, d);
  }

  lemma {:induction false} RemoveAppend(x: string, y: string, c: char)
    ensures Remove(x + y, c) == Remove(x, c) + Remove(y, c)
    decreases |x|
  {
    if x != [] {
      assert (x + y)[1..] == x[1..] + y;
      RemoveAppend(x[1..], y, c);
    } else {
      assert x + y == y;
    }
  }

  lemma {:induction false} RemoveAbsent(x: string, c: char)
    requires c !in x
    ensures Remove(x, c) == x
    decreases |x|
  {
    if x != [] {
      RemoveAbsent(x[1..], c);
      assert x == [x[0]] + x[1..];
    }
  }

  /** Removing a character other than a space works on each part of a joined text separately. */
  lemma RemoveJoined(x: string, y: string, z: string, c: char)
    requires c != ' '
    ensures Remove(Joined(x, y, z), c) == Joined(Remove(x, c), Remove(y, c), Remove(z, c))
  {
    var sp := [' '];
    RemoveAbsent(sp, c);
    RemoveAppend(x + sp + y + sp, z, c);
    RemoveAppend(x + sp + y, sp, c);
    RemoveAppend(x + sp, y, c);
    RemoveAppend(x, sp, c);
  }

  /** A shortened count loses its comma. */
  lemma RemoveItemComma(n: string, u: UnitRule)
    requires IsNumeral(n) && IsUnit(u) && u.letter != ','
    ensures Remove(ShortItem(n, u), ',') == Short(n, u)
    ensures Remove(Short(n, u), ',') == Short(n, u)
  {
    assert ',' !in Short(n, u) by {
      assert forall k | 0 <= k < |n| :: IsDigit(n[k]);
    }
    RemoveAbsent(Short(n, u), ',');
    RemoveAppend(Short(n, u), [','], ',');
    assert Remove([','], ',') == [];
  }

  /** The words of the first three rules, written out. */
  lemma PhraseShape(n: string, plural: bool)
    ensures Phrase(n, UptimeRules[0], plural) == n + " year" + Plural(plural)
    ensures Phrase(n, UptimeRules[1], plural) == n + " week" + Plural(plural)
    ensures Phrase(n, UptimeRules[2], plural) == n + " day" + Plural(plural)
  {
    Assoc(n, [' '], "year");
    Assoc(n, [' '], "week");
    Assoc(n, [' '], "day");
  }

  /**
   * `_format_uptime` of an uptime in years, weeks and days, the parts
   * separated by ", " and each unit singular or plural: each count keeps
   * its digits and takes its unit's letter, and the commas go.
   * "3 years, 2 weeks, 1 day" gives "3y 2w 1d"; "12 years, 10 weeks,
   * 25 days" gives "12y 10w 25d".
   */
  lemma UptimeThreeUnits(a: string, b: string, c: string, py: bool, pw: bool, pd: bool)
    requires IsNumeral(a) && IsNumeral(b) && IsNumeral(c)
    ensures NormalizeUptime(Joined(a + " year" + Plural(py) + ",", b + " week" + Plural(pw) + ",", c + " day" + Plural(pd)))
              == Joined(a + "y", b + "w", c + "d")
  {
    var y, w, d := UptimeRules[0], UptimeRules[1], UptimeRules[2];
    PhraseShape(a, py);
    PhraseShape(b, pw);
    PhraseShape(c, pd);
    var raw := Joined(Item(a, y, py), Item(b, w, pw), Phrase(c, d, pd));
    assert Joined(a + " year" + Plural(py) + ",", b + " week" + Plural(pw) + ",", c + " day" + Plural(pd)) == raw;
    RulesThree(a, b, c, py, pw, pd);
    FinishThree(a, b, c);
  }

  /** The five substitutions take the three phrases to their letters and leave the commas. */
  lemma RulesThree(a: string, b: string, c: string, py: bool, pw: bool, pd: bool)
    requires IsNumeral(a) && IsNumeral(b) && IsNumeral(c)
    ensures var y, w, d := UptimeRules[0], UptimeRules[1], UptimeRules[2];
      ApplyRules(Joined(Item(a, y, py), Item(b, w, pw), Phrase(c, d, pd)), UptimeRules)
        == Joined(ShortItem(a, y), ShortItem(b, w), Short(c, d))
  {
    var h, m := UptimeRules[3], UptimeRules[4];
    UptimeUnits();
    YearStep(a, b, c, py, pw, pd);
    WeekStep(a, b, c, pw, pd);
    DayStep(a, b, c, pd);
    LaterStep(a, b, c, h);
    LaterStep(a, b, c, m);
    assert UptimeRules[1..][1..] == UptimeRules[2..];
    assert UptimeRules[2..][1..] == UptimeRules[3..];
    assert UptimeRules[3..][1..] == UptimeRules[4..];
    assert UptimeRules[4..][1..] == [];
  }

  /** Dropping the commas and stripping leaves the letters separated by single spaces. */
  lemma FinishThree(a: string, b: string, c: string)
    requires IsNumeral(a) && IsNumeral(b) && IsNumeral(c)
    ensures var y, w, d := UptimeRules[0], UptimeRules[1], UptimeRules[2];
      Strip(Remove(Joined(ShortItem(a, y), ShortItem(b, w), Short(c, d)), ','))
        == Joined(a + "y", b + "w", c + "d")
  {
    var y, w, d := UptimeRules[0], UptimeRules[1], UptimeRules[2];
    UptimeUnits();
    calc {
      Strip(Remove(Joined(ShortItem(a, y), ShortItem(b, w), Short(c, d)), ','));
      { RemoveJoined(ShortItem(a, y), ShortItem(b, w), Short(c, d), ',');
        RemoveItemComma(a, y); RemoveItemComma(b, w); RemoveItemComma(c, d); }
      Strip(Joined(Short(a, y), Short(b, w), Short(c, d)));
      { StripLetters(a, b, c); }
      Joined(a + "y", b + "w", c + "d");
    }
  }

  /** The abbreviated form starts with a digit and ends with a letter, so stripping keeps it. */
  lemma StripLetters(a: string, b: string, c: string)
    requires IsNumeral(a) && IsNumeral(b) && IsNumeral(c)
    ensures var y, w, d := UptimeRules[0], UptimeRules[1], UptimeRules[2];
      Strip(Joined(Short(a, y), Short(b, w), Short(c, d))) == Joined(a + "y", b + "w", c + "d")
  {
    var r := Joined(a + "y", b + "w", c + "d");
    assert r[0] == a[0] && IsDigit(a[0]);
    assert r[|r| - 1] == 'd';
    StripKeeps(r);
  }

  /** Text that neither starts nor ends with whitespace is its own strip. */
  lemma StripKeeps(r: string)
    requires r != [] && !IsSpace(r[0]) && !IsSpace(r[|r| - 1])
    ensures Strip(r) == r
  {
    assert TrimStart(r) == r;
  }
}
