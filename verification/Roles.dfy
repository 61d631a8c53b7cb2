/** The merge of the manifests' ClusterRole rules into the operator's own role. */
module Roles {
  import opened Basics

  datatype Rule = Rule(nonResourceURLs: seq<string>, apiGroups: seq<string>, resources: seq<string>, verbs: seq<string>)

  datatype Doc = OtherDoc | ClusterRole(rules: seq<Rule>)

  type Verbs = set<string>

  /** The two dictionaries of the script. */
  datatype Table = Table(roles: map<string, map<string, Verbs>>, urls: map<string, Verbs>)

  const EMPTY: Table := Table(map[], map[])
  const PATCH := "patch"

  function VerbSet(rule: Rule): Verbs {
    set v | v in rule.verbs
  }

  // ---------------------------------------------------------------------------
  // The merge, as functions
  // ---------------------------------------------------------------------------

  function AddResource(t: Table, group: string, resource: string, verbs: Verbs): Table {
    var a := if group in t.roles then t.roles[group] else map[];
    var known := if resource in a then a[resource] else {};
    t.(roles := t.roles[group := a[resource := known + verbs + {PATCH}]])
  }

  function AddResources(t: Table, group: string, resources: seq<string>, n: nat, verbs: Verbs): Table
    requires n <= |resources|
  {
    if n == 0 then t else AddResource(AddResources(t, group, resources, n - 1, verbs), group, resources[n - 1], verbs)
  }

  function AddGroups(t: Table, groups: seq<string>, n: nat, resources: seq<string>, verbs: Verbs): Table
    requires n <= |groups|
  {
    if n == 0 then t
    else AddResources(AddGroups(t, groups, n - 1, resources, verbs), groups[n - 1], resources, |resources|, verbs)
  }

  function AddURLs(t: Table, urls: seq<string>, n: nat, verbs: Verbs): Table
    requires n <= |urls|
  {
    if n == 0 then t
    else
      var prev := AddURLs(t, urls, n - 1, verbs);
      var url := urls[n - 1];
      prev.(urls := prev.urls[url := (if url in prev.urls then prev.urls[url] else {}) + verbs])
  }

  function AddRule(t: Table, rule: Rule): Table {
    if rule.nonResourceURLs != [] then AddURLs(t, rule.nonResourceURLs, |rule.nonResourceURLs|, VerbSet(rule))
    else AddGroups(t, rule.apiGroups, |rule.apiGroups|, rule.resources, VerbSet(rule))
  }

  function AddRules(t: Table, rules: seq<Rule>, n: nat): Table
    requires n <= |rules|
  {
    if n == 0 then t else AddRule(AddRules(t, rules, n - 1), rules[n - 1])
  }

  function RulesOfDocs(docs: seq<Doc>, n: nat): seq<Rule>
    requires n <= |docs|
  {
    if n == 0 then [] else RulesOfDocs(docs, n - 1) + if docs[n - 1].ClusterRole? then docs[n - 1].rules else []
  }

  function RulesOfFiles(files: seq<seq<Doc>>, n: nat): seq<Rule>
    requires n <= |files|
  {
    if n == 0 then [] else RulesOfFiles(files, n - 1) + RulesOfDocs(files[n - 1], |files[n - 1]|)
  }

  /** All rules of all ClusterRoles, in the order they are read. */
  function AllRules(files: seq<seq<Doc>>): seq<Rule> {
    RulesOfFiles(files, |files|)
  }

  ghost predicate RuleOfDoc(doc: Doc, rule: Rule) {
    doc.ClusterRole? && rule in doc.rules
  }

  ghost predicate RuleOfFile(file: seq<Doc>, rule: Rule) {
    exists i :: 0 <= i < |file| && RuleOfDoc(file[i], rule)
  }

  lemma {:induction false} DocRules(docs: seq<Doc>, n: nat, rule: Rule)
    requires n <= |docs|
    ensures rule in RulesOfDocs(docs, n) <==> exists i :: 0 <= i < n && RuleOfDoc(docs[i], rule)
  {
    if n > 0 {
      DocRules(docs, n - 1, rule);
    }
  }

  lemma {:induction false} FileRules(files: seq<seq<Doc>>, n: nat, rule: Rule)
    requires n <= |files|
    ensures rule in RulesOfFiles(files, n) <==> exists i :: 0 <= i < n && RuleOfFile(files[i], rule)
  {
    if n > 0 {
      FileRules(files, n - 1, rule);
      DocRules(files[n - 1], |files[n - 1]|, rule);
    }
  }

  /** The rules that are merged are those of the ClusterRoles in all files, and no others. */
  lemma AllRulesAreRead(files: seq<seq<Doc>>, rule: Rule)
    ensures rule in AllRules(files) <==>
              exists i :: 0 <= i < |files| && exists j :: 0 <= j < |files[i]| && files[i][j].ClusterRole?
                                                           && rule in files[i][j].rules
  {
    FileRules(files, |files|, rule);
    forall i | 0 <= i < |files|
      ensures RuleOfFile(files[i], rule) <==>
                exists j :: 0 <= j < |files[i]| && files[i][j].ClusterRole? && rule in files[i][j].rules
    {
      assert forall j :: 0 <= j < |files[i]| ==>
                           (RuleOfDoc(files[i][j], rule) <==> files[i][j].ClusterRole? && rule in files[i][j].rules);
    }
  }

  // ---------------------------------------------------------------------------
  // The merge, in nested loops
  // ---------------------------------------------------------------------------

  method MergeRule(start: Table, rule: Rule) returns (t: Table)
    ensures t == AddRule(start, rule)
  {
    t := start;
    var verbs := VerbSet(rule);
    if rule.nonResourceURLs != [] {
      for i := 0 to |rule.nonResourceURLs|
        invariant t == AddURLs(start, rule.nonResourceURLs, i, verbs)
      {
        var url := rule.nonResourceURLs[i];
        var known := if url in t.urls then t.urls[url] else {};
        t := t.(urls := t.urls[url := known + verbs]);
      }
    } else {
      for i := 0 to |rule.apiGroups|
        invariant t == AddGroups(start, rule.apiGroups, i, rule.resources, verbs)
      {
        var group := rule.apiGroups[i];
        ghost var before := t;
        for j := 0 to |rule.resources|
          invariant t == AddResources(before, group, rule.resources, j, verbs)
        {
          var a := if group in t.roles then t.roles[group] else map[];
          var merged := (if rule.resources[j] in a then a[rule.resources[j]] else {}) + verbs;
          if PATCH !in merged {
            merged := merged + {PATCH};
          }
          assert merged == (if rule.resources[j] in a then a[rule.resources[j]] else {}) + verbs + {PATCH};
          a := a[rule.resources[j] := merged];
          t := t.(roles := t.roles[group := a]);
        }
      }
    }
  }

  lemma {:induction false} AddRulesAppend(t: Table, a: seq<Rule>, b: seq<Rule>, n: nat)
    requires n <= |b|
    ensures AddRules(t, a + b, |a| + n) == AddRules(AddRules(t, a, |a|), b, n)
  {
    hide AddRule;
    if n == 0 {
      AddRulesPrefix(t, a, b, |a|);
    } else {
      AddRulesAppend(t, a, b, n - 1);
      assert (a + b)[|a| + n - 1] == b[n - 1];
    }
  }

  lemma {:induction false} AddRulesPrefix(t: Table, a: seq<Rule>, b: seq<Rule>, n: nat)
    requires n <= |a|
    ensures AddRules(t, a + b, n) == AddRules(t, a, n)
  {
    if n > 0 {
      AddRulesPrefix(t, a, b, n - 1);
    }
  }

  method MergeDocs(start: Table, docs: seq<Doc>) returns (t: Table)
    ensures var rules := RulesOfDocs(docs, |docs|); t == AddRules(start, rules, |rules|)
  {
    hide AddRule;
    t := start;
    for i := 0 to |docs|
      invariant var rules := RulesOfDocs(docs, i); t == AddRules(start, rules, |rules|)
    {
      ghost var done := RulesOfDocs(docs, i);
      if docs[i].ClusterRole? {
        var rules := docs[i].rules;
        ghost var before := t;
        for j := 0 to |rules|
          invariant t == AddRules(before, rules, j)
        {
          t := MergeRule(t, rules[j]);
        }
        AddRulesAppend(start, done, rules, |rules|);
      } else {
        assert done + [] == done;
      }
    }
  }

  method Merge(files: seq<seq<Doc>>) returns (t: Table)
    ensures t == AddRules(EMPTY, AllRules(files), |AllRules(files)|)
  {
    t := EMPTY;
    for i := 0 to |files|
      invariant var rules := RulesOfFiles(files, i); t == AddRules(EMPTY, rules, |rules|)
    {
      ghost var done, more := RulesOfFiles(files, i), RulesOfDocs(files[i], |files[i]|);
      t := MergeDocs(t, files[i]);
      AddRulesAppend(EMPTY, done, more, |more|);
    }
  }

  // ---------------------------------------------------------------------------
  // What the table grants
  // ---------------------------------------------------------------------------

  predicate Has(t: Table, group: string, resource: string) {
    group in t.roles && resource in t.roles[group]
  }

  function Granted(t: Table, group: string, resource: string): Verbs {
    if Has(t, group, resource) then t.roles[group][resource] else {}
  }

  function GrantedURL(t: Table, url: string): Verbs {
    if url in t.urls then t.urls[url] else {}
  }

  predicate Mentions(rule: Rule, group: string, resource: string) {
    rule.nonResourceURLs == [] && group in rule.apiGroups && resource in rule.resources
  }

  /** A group is in the table only with some resource. */
  ghost predicate Inhabited(t: Table) {
    forall g :: g in t.roles ==> exists r :: r in t.roles[g]
  }

  lemma ResourceAdded(t: Table, group: string, resource: string, verbs: Verbs, g: string, r: string)
    requires Inhabited(t)
    ensures var t' := AddResource(t, group, resource, verbs);
            var hit := g == group && r == resource;
            && t'.urls == t.urls && Inhabited(t')
            && (Has(t', g, r) <==> Has(t, g, r) || hit)
            && Granted(t', g, r) == Granted(t, g, r) + (if hit then verbs + {PATCH} else {})
  {
    assert resource in AddResource(t, group, resource, verbs).roles[group];
  }

  lemma {:induction false} ResourcesAdded(t: Table, group: string, resources: seq<string>, n: nat, verbs: Verbs,
      g: string, r: string)
    requires n <= |resources| && Inhabited(t)
    ensures var t' := AddResources(t, group, resources, n, verbs);
            var hit := g == group && r in resources[..n];
            && t'.urls == t.urls && Inhabited(t')
            && (Has(t', g, r) <==> Has(t, g, r) || hit)
            && Granted(t', g, r) == Granted(t, g, r) + (if hit then verbs + {PATCH} else {})
  {
    if n > 0 {
      hide AddResource, Inhabited, Has, Granted;
      ResourcesAdded(t, group, resources, n - 1, verbs, g, r);
      ResourceAdded(AddResources(t, group, resources, n - 1, verbs), group, resources[n - 1], verbs, g, r);
      assert resources[..n] == resources[..n - 1] + [resources[n - 1]];
    }
  }

  lemma {:induction false} GroupsAdded(t: Table, groups: seq<string>, n: nat, resources: seq<string>, verbs: Verbs,
      g: string, r: string)
    requires n <= |groups| && Inhabited(t)
    ensures var t' := AddGroups(t, groups, n, resources, verbs);
            var hit := g in groups[..n] && r in resources;
            && t'.urls == t.urls && Inhabited(t')
            && (Has(t', g, r) <==> Has(t, g, r) || hit)
            && Granted(t', g, r) == Granted(t, g, r) + (if hit then verbs + {PATCH} else {})
  {
    if n > 0 {
      hide AddResources, Inhabited, Has, Granted;
      GroupsAdded(t, groups, n - 1, resources, verbs, g, r);
      ResourcesAdded(AddGroups(t, groups, n - 1, resources, verbs), groups[n - 1], resources, |resources|, verbs, g, r);
      assert groups[..n] == groups[..n - 1] + [groups[n - 1]];
      assert resources[..|resources|] == resources;
    }
  }

  lemma {:induction false} URLsAdded(t: Table, urls: seq<string>, n: nat, verbs: Verbs, u: string)
    requires n <= |urls|
    ensures var t' := AddURLs(t, urls, n, verbs);
            var hit := u in urls[..n];
            && t'.roles == t.roles
            && (u in t'.urls <==> u in t.urls || hit)
            && GrantedURL(t', u) == GrantedURL(t, u) + (if hit then verbs else {})
  {
    if n > 0 {
      URLsAdded(t, urls, n - 1, verbs, u);
      assert urls[..n] == urls[..n - 1] + [urls[n - 1]];
    }
  }

  /** The union of the verbs of the rules that mention a resource, plus patch. */
  ghost function Union(rules: seq<Rule>, group: string, resource: string): Verbs {
    (set i, v | 0 <= i < |rules| && Mentions(rules[i], group, resource) && v in rules[i].verbs :: v) +
    (if exists i :: 0 <= i < |rules| && Mentions(rules[i], group, resource) then {"patch"} else {})
  }

  ghost function UnionURL(rules: seq<Rule>, url: string): Verbs {
    set i, v | 0 <= i < |rules| && url in rules[i].nonResourceURLs && v in rules[i].verbs :: v
  }

  /** What one rule adds, on any resource and any URL. */
  lemma RuleAdded(t: Table, rule: Rule, g: string, r: string, u: string)
    requires Inhabited(t)
    ensures var t' := AddRule(t, rule);
            && Inhabited(t')
            && (Has(t', g, r) <==> Has(t, g, r) || Mentions(rule, g, r))
            && Granted(t', g, r) == Granted(t, g, r) + (if Mentions(rule, g, r) then VerbSet(rule) + {PATCH} else {})
            && (u in t'.urls <==> u in t.urls || u in rule.nonResourceURLs)
            && GrantedURL(t', u) == GrantedURL(t, u) + (if u in rule.nonResourceURLs then VerbSet(rule) else {})
  {
    if rule.nonResourceURLs != [] {
      URLsAdded(t, rule.nonResourceURLs, |rule.nonResourceURLs|, VerbSet(rule), u);
      assert rule.nonResourceURLs[..|rule.nonResourceURLs|] == rule.nonResourceURLs;
    } else {
      GroupsAdded(t, rule.apiGroups, |rule.apiGroups|, rule.resources, VerbSet(rule), g, r);
      assert rule.apiGroups[..|rule.apiGroups|] == rule.apiGroups;
    }
  }

  ghost predicate Mentioned(rules: seq<Rule>, n: nat, g: string, r: string)
    requires n <= |rules|
  {
    exists i :: 0 <= i < n && Mentions(rules[i], g, r)
  }

  ghost predicate MentionedURL(rules: seq<Rule>, n: nat, u: string)
    requires n <= |rules|
  {
    exists i :: 0 <= i < n && u in rules[i].nonResourceURLs
  }

  lemma MentionedStep(rules: seq<Rule>, n: nat, g: string, r: string, u: string)
    requires 0 < n <= |rules|
    ensures Mentioned(rules, n, g, r) <==> Mentioned(rules, n - 1, g, r) || Mentions(rules[n - 1], g, r)
    ensures MentionedURL(rules, n, u) <==> MentionedURL(rules, n - 1, u) || u in rules[n - 1].nonResourceURLs
  {
  }

  lemma {:induction false} RulesAdded(rules: seq<Rule>, n: nat, g: string, r: string, u: string)
    requires n <= |rules|
    ensures var t := AddRules(EMPTY, rules, n);
            && Inhabited(t)
            && (Has(t, g, r) <==> Mentioned(rules, n, g, r))
            && Granted(t, g, r) == Union(rules[..n], g, r)
            && (u in t.urls <==> MentionedURL(rules, n, u))
            && GrantedURL(t, u) == UnionURL(rules[..n], u)
  {
    if n > 0 {
      hide AddRule, Inhabited, Has, Granted, GrantedURL, Mentions, Union, UnionURL, VerbSet, Mentioned, MentionedURL;
      RulesAdded(rules, n - 1, g, r, u);
      RuleAdded(AddRules(EMPTY, rules, n - 1), rules[n - 1], g, r, u);
      UnionStep(rules, n, g, r, u);
      MentionedStep(rules, n, g, r, u);
    }
  }

  lemma UnionStep(rules: seq<Rule>, n: nat, g: string, r: string, u: string)
    requires 0 < n <= |rules|
    ensures Union(rules[..n], g, r) ==
            Union(rules[..n - 1], g, r) + (if Mentions(rules[n - 1], g, r) then VerbSet(rules[n - 1]) + {PATCH} else {})
    ensures UnionURL(rules[..n], u) ==
            UnionURL(rules[..n - 1], u) + (if u in rules[n - 1].nonResourceURLs then VerbSet(rules[n - 1]) else {})
  {
    var a, b := rules[..n], rules[..n - 1];
    assert forall i :: 0 <= i < n - 1 ==> a[i] == b[i];
    assert a[n - 1] == rules[n - 1];
  }

  /** The merged role grants, for every resource, exactly the union of the verbs of the rules
      that mention it, plus patch, and for every URL exactly the union of its verbs. */
  lemma GrantsExactlyTheUnion(files: seq<seq<Doc>>, g: string, r: string, u: string)
    ensures var rules := AllRules(files);
            var t := AddRules(EMPTY, rules, |rules|);
            && (Has(t, g, r) <==> exists i :: 0 <= i < |rules| && Mentions(rules[i], g, r))
            && Granted(t, g, r) == Union(rules, g, r)
            && (u in t.urls <==> exists i :: 0 <= i < |rules| && u in rules[i].nonResourceURLs)
            && GrantedURL(t, u) == UnionURL(rules, u)
  {
    var rules := AllRules(files);
    RulesAdded(rules, |rules|, g, r, u);
    assert rules[..|rules|] == rules;
  }

  lemma UnionOfSameRules(a: seq<Rule>, b: seq<Rule>, g: string, r: string, u: string)
    requires forall rule :: rule in a <==> rule in b
    ensures Union(a, g, r) <= Union(b, g, r) && UnionURL(a, u) <= UnionURL(b, u)
  {
    forall i | 0 <= i < |a| ensures exists j :: 0 <= j < |b| && b[j] == a[i] {
      assert a[i] in b;
    }
  }

  lemma SameGrants(a: seq<Rule>, b: seq<Rule>, g: string, r: string, u: string)
    requires forall rule :: rule in a <==> rule in b
    ensures var s, t := AddRules(EMPTY, a, |a|), AddRules(EMPTY, b, |b|);
            && Has(s, g, r) == Has(t, g, r) && Granted(s, g, r) == Granted(t, g, r)
            && (u in s.urls <==> u in t.urls) && GrantedURL(s, u) == GrantedURL(t, u)
            && Inhabited(s) && Inhabited(t)
  {
    hide AddRules, Union, UnionURL, Granted, GrantedURL, Has, Inhabited, Mentions;
    assert a[..|a|] == a && b[..|b|] == b;
    RulesAdded(a, |a|, g, r, u);
    RulesAdded(b, |b|, g, r, u);
    UnionOfSameRules(a, b, g, r, u);
    UnionOfSameRules(b, a, g, r, u);
    forall i | 0 <= i < |a| ensures a[i] in b {
    }
    forall i | 0 <= i < |b| ensures b[i] in a {
    }
  }

  /** The granted relation depends on which rules there are, not on their order or number. */
  lemma MergeIgnoresOrder(a: seq<Rule>, b: seq<Rule>)
    requires forall rule :: rule in a <==> rule in b
    ensures AddRules(EMPTY, a, |a|) == AddRules(EMPTY, b, |b|)
  {
    var s, t := AddRules(EMPTY, a, |a|), AddRules(EMPTY, b, |b|);
    forall g, r ensures Has(s, g, r) == Has(t, g, r) && Granted(s, g, r) == Granted(t, g, r) {
      SameGrants(a, b, g, r, "");
    }
    forall u ensures (u in s.urls <==> u in t.urls) && GrantedURL(s, u) == GrantedURL(t, u) {
      SameGrants(a, b, "", "", u);
    }
    SameGrants(a, b, "", "", "");
    SameTables(s, t);
  }

  lemma SameTables(s: Table, t: Table)
    requires Inhabited(s) && Inhabited(t)
    requires forall g, r :: Has(s, g, r) == Has(t, g, r) && Granted(s, g, r) == Granted(t, g, r)
    requires forall u :: (u in s.urls <==> u in t.urls) && GrantedURL(s, u) == GrantedURL(t, u)
    ensures s == t
  {
    forall g ensures g in s.roles <==> g in t.roles {
      if g in s.roles {
        var r :| r in s.roles[g];
        assert Has(s, g, r);
      }
      if g in t.roles {
        var r :| r in t.roles[g];
        assert Has(t, g, r);
      }
    }
    forall g | g in s.roles ensures s.roles[g] == t.roles[g] {
      forall r ensures r in s.roles[g] <==> r in t.roles[g] {
        assert Has(s, g, r) == Has(t, g, r);
      }
      forall r | r in s.roles[g] ensures s.roles[g][r] == t.roles[g][r] {
        assert Granted(s, g, r) == Granted(t, g, r);
      }
    }
    assert s.roles == t.roles;
    forall u | u in s.urls ensures s.urls[u] == t.urls[u] {
      assert GrantedURL(s, u) == GrantedURL(t, u);
    }
    assert s.urls == t.urls;
  }

  // ---------------------------------------------------------------------------
  // The output
  // ---------------------------------------------------------------------------

  datatype OutRule = ResourceRule(group: string, resource: string, verbs: Verbs) | URLRule(url: string, verbs: Verbs)

  /** The order of strings by code points. */
  predicate Less(a: string, b: string) {
    b != [] && (a == [] || a[0] < b[0] || (a[0] == b[0] && Less(a[1..], b[1..])))
  }

  lemma {:induction false} LessIsTotal(a: string, b: string)
    ensures a == b || Less(a, b) || Less(b, a)
    ensures !(Less(a, b) && Less(b, a)) && !Less(a, a)
  {
    if a != [] && b != [] {
      LessIsTotal(a[1..], b[1..]);
      assert a == [a[0]] + a[1..] && b == [b[0]] + b[1..];
    }
    if a != [] {
      LessIsTotal(a[1..], a[1..]);
    }
  }

  lemma {:induction false} LessIsTransitive(a: string, b: string, c: string)
    requires Less(a, b) && Less(b, c)
    ensures Less(a, c)
  {
    if a != [] && a[0] == b[0] == c[0] {
      LessIsTransitive(a[1..], b[1..], c[1..]);
    }
  }

  ghost predicate Least(keys: set<string>, m: string) {
    m in keys && forall k :: k in keys ==> k == m || Less(m, k)
  }

  lemma {:induction false} LeastExists(keys: set<string>) returns (m: string)
    requires keys != {}
    ensures Least(keys, m)
  {
    var x :| x in keys;
    if keys == {x} {
      m := x;
    } else {
      var y := LeastExists(keys - {x});
      LessIsTotal(x, y);
      m := if Less(x, y) then x else y;
      forall k | k in keys && k != m ensures Less(m, k) {
        if m == x && k != y {
          LessIsTransitive(x, y, k);
        }
      }
    }
  }

  ghost predicate Ascending(s: seq<string>) {
    forall i, j :: 0 <= i < j < |s| ==> Less(s[i], s[j])
  }

  /** The keys of a dictionary in order. */
  method Sorted(keys: set<string>) returns (s: seq<string>)
    ensures Ascending(s) && forall k :: k in s <==> k in keys
  {
    s := [];
    var left := keys;
    while left != {}
      invariant left <= keys && Ascending(s)
      invariant forall k :: k in keys <==> k in s || k in left
      invariant forall i, k :: 0 <= i < |s| && k in left ==> Less(s[i], k)
      decreases |left|
    {
      ghost var least := LeastExists(left);
      var m :| m in left && forall k :: k in left ==> k == m || Less(m, k);
      forall k ensures !(k == m && Less(k, m)) {
        LessIsTotal(m, m);
      }
      left := left - {m};
      s := s + [m];
    }
    forall k | k in s ensures k in keys {
      assert k in keys <==> k in s || k in left;
    }
  }

  predicate FromTable(t: Table, o: OutRule) {
    match o
    case ResourceRule(g, r, verbs) => Has(t, g, r) && verbs == t.roles[g][r]
    case URLRule(u, verbs) => u in t.urls && verbs == t.urls[u]
  }

  /** Resources by group and name, and then URLs. */
  predicate Before(o: OutRule, p: OutRule) {
    match (o, p)
    case (ResourceRule(g, r, _), ResourceRule(g', r', _)) => Less(g, g') || (g == g' && Less(r, r'))
    case (ResourceRule(_, _, _), URLRule(_, _)) => true
    case (URLRule(_, _), ResourceRule(_, _, _)) => false
    case (URLRule(u, _), URLRule(u', _)) => Less(u, u')
  }

  ghost predicate InOrder(out: seq<OutRule>) {
    forall i, j :: 0 <= i < j < |out| ==> Before(out[i], out[j])
  }

  lemma AppendInOrder(out: seq<OutRule>, o: OutRule)
    requires InOrder(out) && forall i :: 0 <= i < |out| ==> Before(out[i], o)
    ensures InOrder(out + [o])
  {
  }

  method EmitResources(t: Table) returns (out: seq<OutRule>)
    ensures InOrder(out)
    ensures forall o :: o in out <==> o.ResourceRule? && FromTable(t, o)
  {
    hide Less;
    out := [];
    var groups := Sorted(t.roles.Keys);
    for i := 0 to |groups|
      invariant InOrder(out)
      invariant forall o :: o in out <==> o.ResourceRule? && FromTable(t, o) && o.group in groups[..i]
    {
      var g := groups[i];
      assert g !in groups[..i] by {
        LessIsTotal(g, g);
      }
      assert forall x :: x in groups[..i] ==> Less(x, g);
      var resources := Sorted(t.roles[g].Keys);
      for j := 0 to |resources|
        invariant InOrder(out)
        invariant forall o :: o in out <==>
                                o.ResourceRule? && FromTable(t, o) &&
                                (o.group in groups[..i] || (o.group == g && o.resource in resources[..j]))
      {
        var r := resources[j];
        assert forall x :: x in resources[..j] ==> Less(x, r);
        var o := ResourceRule(g, r, t.roles[g][r]);
        forall k | 0 <= k < |out| ensures Before(out[k], o) {
          assert out[k] in out;
        }
        AppendInOrder(out, o);
        out := out + [o];
        assert resources[..j + 1] == resources[..j] + [r];
      }
      assert resources[..|resources|] == resources;
      assert groups[..i + 1] == groups[..i] + [g];
    }
    assert groups[..|groups|] == groups;
  }

  /** The rules written out: every entry of the table once, in order, and nothing else. */
  method Emit(t: Table) returns (out: seq<OutRule>)
    ensures InOrder(out)
    ensures forall o :: o in out <==> FromTable(t, o)
  {
    hide Less;
    out := EmitResources(t);
    var urls := Sorted(t.urls.Keys);
    for i := 0 to |urls|
      invariant InOrder(out)
      invariant forall o :: o in out <==> FromTable(t, o) && (o.URLRule? ==> o.url in urls[..i])
    {
      var u := urls[i];
      assert forall x :: x in urls[..i] ==> Less(x, u);
      var o := URLRule(u, t.urls[u]);
      forall k | 0 <= k < |out| ensures Before(out[k], o) {
        assert out[k] in out;
      }
      AppendInOrder(out, o);
      out := out + [o];
      assert urls[..i + 1] == urls[..i] + [u];
    }
    assert urls[..|urls|] == urls;
  }

  lemma BeforeIsStrict(o: OutRule, p: OutRule)
    ensures !Before(o, o) && !(Before(o, p) && Before(p, o))
  {
    match (o, p)
    case (ResourceRule(g, r, _), ResourceRule(g', r', _)) =>
      LessIsTotal(g, g');
      LessIsTotal(r, r');
      LessIsTotal(g, g);
      LessIsTotal(r, r);
    case (URLRule(u, _), URLRule(u', _)) =>
      LessIsTotal(u, u');
      LessIsTotal(u, u);
    case (ResourceRule(g, r, _), _) =>
      LessIsTotal(g, g);
      LessIsTotal(r, r);
    case (URLRule(u, _), _) =>
      LessIsTotal(u, u);
  }

  lemma OrderedHaveNoDuplicates(a: seq<OutRule>)
    requires InOrder(a)
    ensures NoDup(a)
  {
    forall i, j | 0 <= i < j < |a| ensures a[i] != a[j] {
      BeforeIsStrict(a[i], a[j]);
    }
  }

  /** The order leaves no freedom: equal rules make equal outputs. */
  lemma {:induction false} OutputIsDetermined(a: seq<OutRule>, b: seq<OutRule>)
    requires InOrder(a) && InOrder(b) && forall o :: o in a <==> o in b
    ensures a == b
  {
    if a == [] {
      NobodyIn(b);
    } else {
      assert a[0] in b && b[0] in a;
      if a[0] != b[0] {
        BeforeIsStrict(a[0], b[0]);
      }
      forall o ensures o in a[1..] <==> o in b[1..] {
        OrderedTail(a, o);
        OrderedTail(b, o);
      }
      OutputIsDetermined(a[1..], b[1..]);
      assert a == [a[0]] + a[1..] && b == [b[0]] + b[1..];
    }
  }

  lemma NobodyIn(b: seq<OutRule>)
    ensures b == [] || b[0] in b
  {
  }

  lemma OrderedTail(a: seq<OutRule>, o: OutRule)
    requires InOrder(a) && a != []
    ensures o in a[1..] <==> o in a && o != a[0]
  {
    OrderedHaveNoDuplicates(a);
    if o in a && o != a[0] {
      var i :| 0 <= i < |a| && a[i] == o;
      assert a[1..][i - 1] == o;
    }
    if o in a[1..] {
      var i :| 0 <= i < |a[1..]| && a[1..][i] == o;
      assert a[i + 1] == o;
    }
  }

  /** The whole script: in order, every resource some rule mentions is written out once, with
      exactly the union of its verbs plus patch, every URL once with exactly the union of its
      verbs, and nothing else is written. */
  method Generate(files: seq<seq<Doc>>) returns (out: seq<OutRule>)
    ensures InOrder(out) && NoDup(out)
    ensures forall g, r, verbs :: ResourceRule(g, r, verbs) in out <==>
              && (exists i :: 0 <= i < |AllRules(files)| && Mentions(AllRules(files)[i], g, r))
              && verbs == Union(AllRules(files), g, r)
    ensures forall u, verbs :: URLRule(u, verbs) in out <==>
              && (exists i :: 0 <= i < |AllRules(files)| && u in AllRules(files)[i].nonResourceURLs)
              && verbs == UnionURL(AllRules(files), u)
  {
    var t := Merge(files);
    out := Emit(t);
    OrderedHaveNoDuplicates(out);
    hide AddRules, Union, UnionURL, AllRules, Mentions;
    forall g, r, verbs
      ensures ResourceRule(g, r, verbs) in out <==>
                && (exists i :: 0 <= i < |AllRules(files)| && Mentions(AllRules(files)[i], g, r))
                && verbs == Union(AllRules(files), g, r)
    {
      GrantsExactlyTheUnion(files, g, r, "");
    }
    forall u, verbs
      ensures URLRule(u, verbs) in out <==>
                && (exists i :: 0 <= i < |AllRules(files)| && u in AllRules(files)[i].nonResourceURLs)
                && verbs == UnionURL(AllRules(files), u)
    {
      GrantsExactlyTheUnion(files, "", "", u);
    }
  }
}
