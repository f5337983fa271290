/**
 * `split_config_sections` of backend/config.py: a running configuration is
 * scanned line by line and grouped under the most recent section header; a
 * synthetic "System Info" section collects the version and hostname lines.
 * The result is a Python dict, whose keys keep their first-insertion order;
 * it is modelled as an association list without repeated keys.
 *
 * Also the router filter of `get_router_list`.
 */
module ConfigSections {
  import opened Wrappers
  import opened Text

  const GlobalSection := "Global Configuration"
  const SystemInfo := "System Info"

  /** The header keywords of the section pattern, in lower case. */
  const HeaderKeywords: seq<string> :=
    ["interface", "router", "line", "vlan", "ip route", "route-map", "access-list", "banner", "ntp", "snmp-server"]

  /**
   * The section pattern on a stripped line: a keyword, in any ASCII case,
   * then whitespace and at least one more character. On a stripped line the
   * pattern's `\s+.+` comes to "the next character is whitespace and there is
   * at least one character after it".
   */
  predicate IsHeaderWith(line: string, kw: string) {
    |line| >= |kw| + 2 && Lower(line[..|kw|]) == kw && IsSpace(line[|kw|])
  }

  predicate IsHeader(line: string) {
    exists k | 0 <= k < |HeaderKeywords| :: IsHeaderWith(line, HeaderKeywords[k])
  }

  /** A dict with insertion order: keys in order, no key twice. */
  type Sections = seq<(string, string)>

  function Keys(m: Sections): (ks: seq<string>)
    ensures |ks| == |m| && forall i | 0 <= i < |m| :: ks[i] == m[i].0
  {
    if m == [] then [] else [m[0].0] + Keys(m[1..])
  }

  predicate UniqueKeys(m: Sections) {
    forall i, j | 0 <= i < j < |m| :: m[i].0 != m[j].0
  }

  function Lookup(m: Sections, k: string): (r: Option<string>)
    ensures r.None? <==> k !in Keys(m)
    ensures r.Some? ==> (k, r.value) in m
  {
    if m == [] then None else if m[0].0 == k then Some(m[0].1) else Lookup(m[1..], k)
  }

  /**
   * `d[k] = v`: an existing key keeps its place and takes the new value; a
   * new key goes at the end.
   */
  function Put(m: Sections, k: string, v: string): (r: Sections)
    ensures k in Keys(m) ==> Keys(r) == Keys(m)
    ensures k !in Keys(m) ==> Keys(r) == Keys(m) + [k]
    ensures UniqueKeys(m) ==> UniqueKeys(r)
  {
    if m == [] then [(k, v)]
    else if m[0].0 == k then [(k, v)] + m[1..]
    else [m[0]] + Put(m[1..], k, v)
  }

  lemma {:induction false} PutLookup(m: Sections, k: string, v: string, k': string)
    ensures Lookup(Put(m, k, v), k') == if k' == k then Some(v) else Lookup(m, k')
  {
    if m != [] && m[0].0 != k {
      PutLookup(m[1..], k, v, k');
    }
  }

  /** A line as the loop keeps it: stripped and not blank. */
  predicate Kept(l: string) {
    l != [] && !IsSpace(l[0]) && !IsSpace(l[|l| - 1])
  }

  /** The stripped, non-blank lines, in order: what the loop does not skip. */
  function Cleaned(lines: seq<string>): (cl: seq<string>)
    ensures AllKept(cl)
    decreases |lines|
  {
    if lines == [] then []
    else
      var line := Strip(lines[|lines| - 1]);
      var init := Cleaned(lines[..|lines| - 1]);
      if line == [] then init
      else
        KeptAppend(init, line);
        init + [line]
  }

  predicate AllKept(cl: seq<string>) {
    forall i | 0 <= i < |cl| :: Kept(cl[i])
  }

  lemma KeptAppend(cl: seq<string>, line: string)
    requires AllKept(cl) && Kept(line)
    ensures AllKept(cl + [line])
  {
    assert forall i | 0 <= i < |cl| :: (cl + [line])[i] == cl[i];
  }

  /** A section under construction: its key and the lines collected so far. */
  datatype Group = Group(name: string, body: seq<string>)

  /**
   * The reference grouping: lines before the first header form the global
   * group, and each header opens a group of its own that takes the lines up
   * to the next header.
   */
  function Grouping(lines: seq<string>): (gs: seq<Group>)
    ensures |gs| >= 1 && gs[0].name == GlobalSection
    decreases |lines|
  {
    if lines == [] then [Group(GlobalSection, [])]
    else
      var gs := Grouping(lines[..|lines| - 1]);
      var line := lines[|lines| - 1];
      if IsHeader(line) then gs + [Group(line, [])]
      else gs[..|gs| - 1] + [Group(gs[|gs| - 1].name, gs[|gs| - 1].body + [line])]
  }

  /** Every group after the global one is named by a header. */
  predicate NamedByHeaders(gs: seq<Group>) {
    forall i | 1 <= i < |gs| :: IsHeader(gs[i].name)
  }

  /** No body holds a header, and bodies hold lines of `lines` only. */
  predicate BodiesFrom(gs: seq<Group>, lines: seq<string>) {
    forall i | 0 <= i < |gs| :: BodyFrom(gs[i].body, lines)
  }

  predicate BodyFrom(body: seq<string>, lines: seq<string>) {
    forall l | l in body :: !IsHeader(l) && l in lines
  }

  lemma {:induction false} GroupingNames(lines: seq<string>)
    ensures NamedByHeaders(Grouping(lines))
    decreases |lines|
  {
    if lines != [] {
      var init := lines[..|lines| - 1];
      var line := lines[|lines| - 1];
      assert init + [line] == lines;
      GroupingNames(init);
      GroupingStep(init, line);
      var gs := Grouping(init);
      var gs' := Grouping(lines);
      var last := |gs| - 1;
      forall i | 1 <= i < |gs'| ensures IsHeader(gs'[i].name) {
        if i < last { assert gs'[i] == gs[i]; }
      }
    }
  }

  lemma {:induction false} GroupingBodies(lines: seq<string>)
    ensures BodiesFrom(Grouping(lines), lines)
    decreases |lines|
  {
    if lines != [] {
      var init := lines[..|lines| - 1];
      var line := lines[|lines| - 1];
      assert init + [line] == lines;
      GroupingBodies(init);
      GroupingStep(init, line);
      var gs := Grouping(init);
      var gs' := Grouping(lines);
      var last := |gs| - 1;
      forall i | 0 <= i < |gs'| ensures BodyFrom(gs'[i].body, lines) {
        if i < last || (i == last && IsHeader(line)) {
          assert gs'[i] == gs[i] && BodyFrom(gs[i].body, init);
        } else if i == last {
          assert gs'[i].body == gs[last].body + [line] && BodyFrom(gs[last].body, init);
        }
      }
    }
  }

  /** The lines a grouping came from: the global body, then each header followed by its body. */
  function Flatten(gs: seq<Group>): seq<string>
    decreases |gs|
  {
    if gs == [] then []
    else if |gs| == 1 then gs[0].body
    else Flatten(gs[..|gs| - 1]) + [gs[|gs| - 1].name] + gs[|gs| - 1].body
  }

  /**
   * Grouping loses, adds and reorders nothing: read back in order, the
   * groups give the input lines.
   */
  lemma {:induction false} GroupingPartitions(lines: seq<string>)
    ensures Flatten(Grouping(lines)) == lines
    decreases |lines|
  {
    if lines != [] {
      var init := lines[..|lines| - 1];
      var line := lines[|lines| - 1];
      assert init + [line] == lines;
      GroupingPartitions(init);
      GroupingStep(init, line);
      var gs := Grouping(init);
      if IsHeader(line) {
        FlattenAppend(gs, Group(line, []));
      } else {
        FlattenExtendLast(gs, line);
      }
    }
  }

  lemma FlattenAppend(gs: seq<Group>, g: Group)
    requires gs != []
    ensures Flatten(gs + [g]) == Flatten(gs) + [g.name] + g.body
  {
    assert (gs + [g])[..|gs|] == gs;
  }

  lemma {:induction false} FlattenExtendLast(gs: seq<Group>, line: string)
    requires gs != []
    ensures var last := |gs| - 1;
      Flatten(gs[..last] + [Group(gs[last].name, gs[last].body + [line])]) == Flatten(gs) + [line]
  {
    var last := |gs| - 1;
    var gs' := gs[..last] + [Group(gs[last].name, gs[last].body + [line])];
    if last > 0 {
      assert gs'[..last] == gs[..last];
    }
  }

  /** The dict the loop builds: each group with a non-empty body stored under its name, bodies joined by newlines. */
  function Store(gs: seq<Group>): (m: Sections)
    decreases |gs|
  {
    if gs == [] then []
    else
      var m := Store(gs[..|gs| - 1]);
      var g := gs[|gs| - 1];
      if g.body == [] then m else Put(m, g.name, Join("\n", g.body))
  }

  /** A line that belongs in "System Info": it mentions a version or a hostname, in any case. */
  predicate Informative(l: string) {
    Contains(Lower(l), "version") || Contains(Lower(l), "hostname")
  }

  /** The lines of "System Info": the original, unstripped lines mentioning a version or a hostname. */
  function InfoLines(lines: seq<string>): (r: seq<string>)
    ensures |r| <= |lines|
    ensures forall l | l in r :: l in lines && Informative(l)
    ensures forall i | 0 <= i < |lines| && Informative(lines[i]) :: lines[i] in r
  {
    if lines == [] then []
    else
      var l := lines[0];
      var rest := InfoLines(lines[1..]);
      assert forall i | 1 <= i < |lines| && Informative(lines[i]) :: lines[i] in rest by {
        forall i | 1 <= i < |lines| && Informative(lines[i]) ensures lines[i] in rest {
          assert lines[i] == lines[1..][i - 1];
        }
      }
      (if Informative(l) then [l] else []) + rest
  }

  /** Filtering keeps the order and the repetitions: a line added at the end is kept at the end exactly when it is informative. */
  lemma {:induction false} InfoLinesAppend(lines: seq<string>, l: string)
    ensures InfoLines(lines + [l]) == InfoLines(lines) + (if Informative(l) then [l] else [])
    decreases |lines|
  {
    if lines == [] {
      assert lines + [l] == [l];
      assert InfoLines([l][1..]) == [];
    } else {
      assert (lines + [l])[0] == lines[0];
      assert (lines + [l])[1..] == lines[1..] + [l];
      InfoLinesAppend(lines[1..], l);
    }
  }

  /** What `split_config_sections` returns. */
  function ConfigSections(config: string): Sections {
    var base := Store(Grouping(Cleaned(Lines(config))));
    if Contains(Lower(config), "version") then Put(base, SystemInfo, Join("\n", InfoLines(Lines(config))))
    else base
  }

  lemma CleanedStep(lines: seq<string>, i: nat)
    requires i < |lines|
    ensures Cleaned(lines[..i + 1]) == Cleaned(lines[..i]) + (if Strip(lines[i]) == [] then [] else [Strip(lines[i])])
  {
    assert lines[..i + 1][..i] == lines[..i];
  }

  lemma GroupingStep(cl: seq<string>, line: string)
    ensures var gs := Grouping(cl); var last := |gs| - 1;
      Grouping(cl + [line]) ==
        if IsHeader(line) then gs + [Group(line, [])]
        else gs[..last] + [Group(gs[last].name, gs[last].body + [line])]
  {
    assert (cl + [line])[..|cl|] == cl;
  }

  lemma StoreStep(gs: seq<Group>, g: Group)
    ensures Store(gs + [g]) == if g.body == [] then Store(gs) else Put(Store(gs), g.name, Join("\n", g.body))
  {
    assert (gs + [g])[..|gs|] == gs;
  }

  /** What the loop has built from the kept lines `cl`: the closed sections, and the open one. */
  predicate Scanned(cl: seq<string>, sections: Sections, name: string, body: seq<string>) {
    var gs := Grouping(cl);
    sections == Store(gs[..|gs| - 1]) && gs[|gs| - 1] == Group(name, body)
  }

  lemma ScanHeader(cl: seq<string>, sections: Sections, name: string, body: seq<string>, line: string)
    requires Scanned(cl, sections, name, body) && IsHeader(line)
    ensures Scanned(cl + [line], if body != [] then Put(sections, name, Join("\n", body)) else sections, line, [])
  {
    var gs := Grouping(cl);
    GroupingStep(cl, line);
    var gs' := gs + [Group(line, [])];
    assert gs'[..|gs'| - 1] == gs;
    StoreStep(gs[..|gs| - 1], gs[|gs| - 1]);
    assert gs[..|gs| - 1] + [gs[|gs| - 1]] == gs;
  }

  lemma ScanBody(cl: seq<string>, sections: Sections, name: string, body: seq<string>, line: string)
    requires Scanned(cl, sections, name, body) && !IsHeader(line)
    ensures Scanned(cl + [line], sections, name, body + [line])
  {
    var gs := Grouping(cl);
    GroupingStep(cl, line);
    assert (gs[..|gs| - 1] + [Group(name, body + [line])])[..|gs| - 1] == gs[..|gs| - 1];
  }

  lemma ScanDone(cl: seq<string>, sections: Sections, name: string, body: seq<string>)
    requires Scanned(cl, sections, name, body)
    ensures Store(Grouping(cl)) == if body != [] then Put(sections, name, Join("\n", body)) else sections
  {
    var gs := Grouping(cl);
    StoreStep(gs[..|gs| - 1], gs[|gs| - 1]);
    assert gs[..|gs| - 1] + [gs[|gs| - 1]] == gs;
  }

  /** `split_config_sections`: the line loop, proved against the reference grouping. */
  method SplitConfigSections(config: string) returns (sections: Sections)
    ensures sections == ConfigSections(config)
  {
    sections := [];
    var currentSection := GlobalSection;
    var currentLines: seq<string> := [];
    var lines := Lines(config);
    assert Scanned(Cleaned(lines[..0]), sections, currentSection, currentLines) by {
      assert lines[..0] == [];
    }
    for i := 0 to |lines|
      invariant Scanned(Cleaned(lines[..i]), sections, currentSection, currentLines)
    {
      var line := Strip(lines[i]);
      if line == [] {
        assert Cleaned(lines[..i + 1]) == Cleaned(lines[..i]) by { CleanedStep(lines, i); }
        continue;
      }
      assert Cleaned(lines[..i + 1]) == Cleaned(lines[..i]) + [line] by { CleanedStep(lines, i); }
      if IsHeader(line) {
        ghost var closed := if currentLines != [] then Put(sections, currentSection, Join("\n", currentLines)) else sections;
        assert Scanned(Cleaned(lines[..i]) + [line], closed, line, []) by {
          ScanHeader(Cleaned(lines[..i]), sections, currentSection, currentLines, line);
        }
        if currentLines != [] {
          sections := Put(sections, currentSection, Join("\n", currentLines));
        }
        currentSection := line;
        currentLines := [];
      } else {
        assert Scanned(Cleaned(lines[..i]) + [line], sections, currentSection, currentLines + [line]) by {
          ScanBody(Cleaned(lines[..i]), sections, currentSection, currentLines, line);
        }
        currentLines := currentLines + [line];
      }
    }
    assert Store(Grouping(Cleaned(lines))) == if currentLines != [] then Put(sections, currentSection, Join("\n", currentLines)) else sections by {
      assert lines[..|lines|] == lines;
      ScanDone(Cleaned(lines), sections, currentSection, currentLines);
    }
    if currentLines != [] {
      sections := Put(sections, currentSection, Join("\n", currentLines));
    }
    if Contains(Lower(config), "version") {
      sections := Put(sections, SystemInfo, Join("\n", InfoLines(lines)));
    }
  }

  lemma GlobalIsNoHeader()
    ensures !IsHeader(GlobalSection)
  {
    forall k | 0 <= k < |HeaderKeywords| ensures !IsHeaderWith(GlobalSection, HeaderKeywords[k]) {
      var kw := HeaderKeywords[k];
      if |GlobalSection| >= |kw| + 2 {
        assert Lower(GlobalSection[..|kw|])[0] == 'g' != kw[0];
      }
    }
  }

  lemma SystemInfoIsNoHeader()
    ensures !IsHeader(SystemInfo)
  {
    forall k | 0 <= k < |HeaderKeywords| ensures !IsHeaderWith(SystemInfo, HeaderKeywords[k]) {
      var kw := HeaderKeywords[k];
      if |SystemInfo| >= |kw| + 2 {
        assert Lower(SystemInfo[..|kw|])[0] == 's' != kw[0];
      }
    }
  }

  /**
   * "Global Configuration" is a key exactly when some kept line comes before
   * the first header.
   */
  lemma GlobalPresent(config: string)
    ensures var cl := Cleaned(Lines(config));
      GlobalSection in Keys(ConfigSections(config)) <==> cl != [] && !IsHeader(cl[0])
  {
    var cl := Cleaned(Lines(config));
    var base := Store(Grouping(cl));
    GlobalStored(cl);
    if Contains(Lower(config), "version") {
      PutLookup(base, SystemInfo, Join("\n", InfoLines(Lines(config))), GlobalSection);
    }
  }

  /** Before "System Info" is added: the global group is stored exactly when it collected a line. */
  lemma GlobalStored(cl: seq<string>)
    ensures GlobalSection in Keys(Store(Grouping(cl))) <==> cl != [] && !IsHeader(cl[0])
  {
    var gs := Grouping(cl);
    GlobalIsNoHeader();
    GroupingNames(cl);
    GroupingFirst(cl);
    StoreHas(gs, GlobalSection);
  }

  /** The global group's body is empty exactly when the first line is a header, or there is none. */
  lemma {:induction false} GroupingFirst(lines: seq<string>)
    ensures Grouping(lines)[0].body == [] <==> lines == [] || IsHeader(lines[0])
    decreases |lines|
  {
    if |lines| > 1 {
      var init := lines[..|lines| - 1];
      GroupingFirst(init);
      assert init[0] == lines[0];
    }
  }

  /** A name is stored exactly when a group of that name has a body, provided no other group shares the first group's name. */
  lemma StoreHas(gs: seq<Group>, k: string)
    requires |gs| >= 1 && gs[0].name == k
    requires forall i | 1 <= i < |gs| :: gs[i].name != k
    ensures k in Keys(Store(gs)) <==> gs[0].body != []
  {
    if gs[0].body != [] {
      StoreKeeps(gs, 0);
    }
    if k in Keys(Store(gs)) {
      StoreKeysHaveBodies(gs, k);
    }
  }

  /** Once stored, a name stays a key. */
  lemma {:induction false} StoreKeeps(gs: seq<Group>, i: nat)
    requires i < |gs| && gs[i].body != []
    ensures gs[i].name in Keys(Store(gs))
    decreases |gs|
  {
    if i < |gs| - 1 {
      StoreKeeps(gs[..|gs| - 1], i);
    }
  }

  /** Only the names of groups that collected a body are stored. */
  lemma {:induction false} StoreKeysHaveBodies(gs: seq<Group>, k: string)
    requires k in Keys(Store(gs))
    ensures exists i | 0 <= i < |gs| :: gs[i].name == k && gs[i].body != []
    decreases |gs|
  {
    var init := gs[..|gs| - 1];
    var g := gs[|gs| - 1];
    if !(g.body != [] && g.name == k) {
      assert k in Keys(Store(init));
      StoreKeysHaveBodies(init, k);
      var i :| 0 <= i < |init| && init[i].name == k && init[i].body != [];
      assert gs[i] == init[i];
    }
  }

  /** "System Info" is a key exactly when the text mentions "version" in any case, and then holds the matching lines. */
  lemma SystemInfoPresent(config: string)
    ensures SystemInfo in Keys(ConfigSections(config)) <==> Contains(Lower(config), "version")
    ensures Contains(Lower(config), "version") ==>
      Lookup(ConfigSections(config), SystemInfo) == Some(Join("\n", InfoLines(Lines(config))))
  {
    var base := Store(Grouping(Cleaned(Lines(config))));
    SystemInfoNotStored(Cleaned(Lines(config)));
    if Contains(Lower(config), "version") {
      PutLookup(base, SystemInfo, Join("\n", InfoLines(Lines(config))), SystemInfo);
    }
  }

  /** No group is named "System Info": the global one is not, and the others are named by headers. */
  lemma SystemInfoNotStored(cl: seq<string>)
    ensures SystemInfo !in Keys(Store(Grouping(cl)))
  {
    var gs := Grouping(cl);
    SystemInfoIsNoHeader();
    GroupingNames(cl);
    assert forall i | 0 <= i < |gs| :: gs[i].name != SystemInfo;
    if SystemInfo in Keys(Store(gs)) {
      StoreKeysHaveBodies(gs, SystemInfo);
      assert false;
    }
  }

  /** An empty configuration has no sections at all. */
  lemma EmptyConfig()
    ensures ConfigSections("") == []
  {
    assert !Contains(Lower(""), "version");
  }

  /** Every section body is made of kept lines that are not headers. */
  lemma BodiesHoldNoHeaders(config: string, i: nat, l: string)
    requires i < |Grouping(Cleaned(Lines(config)))| && l in Grouping(Cleaned(Lines(config)))[i].body
    ensures !IsHeader(l) && l in Cleaned(Lines(config))
    ensures l != [] && !IsSpace(l[0]) && !IsSpace(l[|l| - 1])
  {
    var cl := Cleaned(Lines(config));
    GroupingBodies(cl);
    assert BodyFrom(Grouping(cl)[i].body, cl);
    var k :| 0 <= k < |cl| && cl[k] == l;
    assert Kept(cl[k]);
  }

  /** The keys `get_router_list` demands of every router record. */
  const RequiredKeys: seq<string> := ["name", "ip", "username", "password"]

  predicate Complete(router: map<string, string>) {
    forall k | k in RequiredKeys :: k in router
  }

  /** The comprehension of `get_router_list`. */
  function RouterList(routers: seq<map<string, string>>): (r: seq<map<string, string>>)
    ensures forall x | x in r :: Complete(x)
    ensures |r| <= |routers|
  {
    if routers == [] then []
    else (if Complete(routers[0]) then [routers[0]] else []) + RouterList(routers[1..])
  }

  /** A router is listed exactly when it is in the input and complete. */
  lemma {:induction false} RouterListMembers(routers: seq<map<string, string>>, x: map<string, string>)
    ensures x in RouterList(routers) <==> x in routers && Complete(x)
  {
    if routers != [] {
      RouterListMembers(routers[1..], x);
      assert routers == [routers[0]] + routers[1..];
    }
  }

  /** Filtering keeps the original order: it distributes over concatenation. */
  lemma {:induction false} RouterListAppend(a: seq<map<string, string>>, b: seq<map<string, string>>)
    ensures RouterList(a + b) == RouterList(a) + RouterList(b)
  {
    if a != [] {
      assert (a + b)[0] == a[0] && (a + b)[1..] == a[1..] + b;
      RouterListAppend(a[1..], b);
      var head := if Complete(a[0]) then [a[0]] else [];
      assert head + (RouterList(a[1..]) + RouterList(b)) == (head + RouterList(a[1..])) + RouterList(b);
    } else {
      assert a + b == b;
    }
  }
}
