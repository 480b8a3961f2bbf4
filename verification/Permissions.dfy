/** The tool permission table: one pass over its rules finds the most specific one. */
module Permissions {
  import opened Outcome
  import opened Order

  datatype Entry = Entry(key: string, display: string, action: string)

  /** A rule whose action was not recognized, with the action as written. */
  datatype InvalidRule = InvalidRule(key: string, action: string)

  datatype Resolution = Resolution(entries: seq<Entry>, invalid: seq<InvalidRule>)

  // ---------- normalizing, over ASCII ----------

  predicate IsSpace(c: char) {
    c == ' ' || c == '\t' || c == '\n' || c == '\r' || c == 11 as char || c == 12 as char
  }

  function TrimLeft(s: string): string {
    if s != [] && IsSpace(s[0]) then TrimLeft(s[1..]) else s
  }

  function TrimRight(s: string): string {
    if s != [] && IsSpace(s[|s| - 1]) then TrimRight(s[..|s| - 1]) else s
  }

  function Lower(s: string): string {
    seq(|s|, i requires 0 <= i < |s| => if 'A' <= s[i] <= 'Z' then ((s[i] as int) + 32) as char else s[i])
  }

  function Normalize(s: string): string {
    Lower(TrimRight(TrimLeft(s)))
  }

  predicate IsAction(a: string) {
    a == "allow" || a == "ask" || a == "deny"
  }

  // ---------- reading the configured rules ----------

  function RuleOf(k: string, action: string): Entry {
    Entry(Normalize(k), k, Normalize(action))
  }

  function EntriesOf(keys: seq<string>, permissions: map<string, string>): seq<Entry>
    requires forall k :: k in keys ==> k in permissions
  {
    if keys == [] then []
    else
      assert keys[0] in keys;
      (if IsAction(Normalize(permissions[keys[0]])) then [RuleOf(keys[0], permissions[keys[0]])] else [])
      + EntriesOf(keys[1..], permissions)
  }

  function InvalidOf(keys: seq<string>, permissions: map<string, string>): seq<InvalidRule>
    requires forall k :: k in keys ==> k in permissions
  {
    if keys == [] then []
    else
      assert keys[0] in keys;
      (if IsAction(Normalize(permissions[keys[0]])) then [] else [InvalidRule(keys[0], permissions[keys[0]])]) + InvalidOf(keys[1..], permissions)
  }

  lemma RulesStep(keys: seq<string>, permissions: map<string, string>, i: nat)
    requires i < |keys| && forall k :: k in keys ==> k in permissions
    ensures forall k :: k in keys[i..] ==> k in keys
    ensures forall k :: k in keys[i + 1..] ==> k in keys
    ensures EntriesOf(keys[i..], permissions) ==
            (if IsAction(Normalize(permissions[keys[i]])) then [RuleOf(keys[i], permissions[keys[i]])] else [])
            + EntriesOf(keys[i + 1..], permissions)
    ensures InvalidOf(keys[i..], permissions) ==
            (if IsAction(Normalize(permissions[keys[i]])) then [] else [InvalidRule(keys[i], permissions[keys[i]])]) + InvalidOf(keys[i + 1..], permissions)
  {
    hide IsAction, Normalize;
    assert keys[i..][1..] == keys[i + 1..];
  }

  /** The rules sorted by the key as written; a rule with an unknown action is set aside. */
  method ResolvePermissions(permissions: map<string, string>) returns (res: Resolution)
    ensures exists keys :: Lists(keys, permissions.Keys)
                           && res == Resolution(EntriesOf(keys, permissions), InvalidOf(keys, permissions))
  {
    hide IsAction, Normalize, RuleOf, EntriesOf, InvalidOf;
    var keys := SortedList(permissions.Keys);
    var entries, invalid := [], [];
    assert keys[0..] == keys;
    for i := 0 to |keys|
      invariant forall k :: k in keys[i..] ==> k in permissions
      invariant entries + EntriesOf(keys[i..], permissions) == EntriesOf(keys, permissions)
      invariant invalid + InvalidOf(keys[i..], permissions) == InvalidOf(keys, permissions)
    {
      var k := keys[i];
      RulesStep(keys, permissions, i);
      if IsAction(Normalize(permissions[k])) {
        entries := entries + [RuleOf(k, permissions[k])];
      } else {
        invalid := invalid + [InvalidRule(k, permissions[k])];
      }
    }
    NoRules(keys[|keys|..], permissions);
    res := Resolution(entries, invalid);
  }

  lemma NoRules(keys: seq<string>, permissions: map<string, string>)
    requires keys == []
    ensures EntriesOf(keys, permissions) == [] && InvalidOf(keys, permissions) == []
  {
  }

  /** Every configured rule is read once: as an entry when its action is known, and as
      an invalid key when not. */
  lemma {:induction false} RulesAreReadOnce(keys: seq<string>, permissions: map<string, string>, k: string)
    requires k in keys && forall x :: x in keys ==> x in permissions
    ensures IsAction(Normalize(permissions[k])) <==> RuleOf(k, permissions[k]) in EntriesOf(keys, permissions)
    ensures !IsAction(Normalize(permissions[k])) <==> InvalidRule(k, permissions[k]) in InvalidOf(keys, permissions)
    ensures |EntriesOf(keys, permissions)| + |InvalidOf(keys, permissions)| == |keys|
  {
    EntriesHaveActions(keys, permissions, RuleOf(k, permissions[k]));
    InvalidHaveNone(keys, permissions, InvalidRule(k, permissions[k]));
    RulesAddUp(keys, permissions);
    RuleIsRead(keys, permissions, k);
  }

  lemma {:induction false} RuleIsRead(keys: seq<string>, permissions: map<string, string>, k: string)
    requires k in keys && forall x :: x in keys ==> x in permissions
    ensures if IsAction(Normalize(permissions[k])) then RuleOf(k, permissions[k]) in EntriesOf(keys, permissions)
            else InvalidRule(k, permissions[k]) in InvalidOf(keys, permissions)
  {
    if keys[0] != k {
      RuleIsRead(keys[1..], permissions, k);
    }
  }

  lemma {:induction false} EntriesHaveActions(keys: seq<string>, permissions: map<string, string>, e: Entry)
    requires forall x :: x in keys ==> x in permissions
    ensures e in EntriesOf(keys, permissions) ==> IsAction(e.action)
  {
    if keys != [] {
      EntriesHaveActions(keys[1..], permissions, e);
    }
  }

  lemma {:induction false} InvalidHaveNone(keys: seq<string>, permissions: map<string, string>, r: InvalidRule)
    requires forall x :: x in keys ==> x in permissions
    ensures r in InvalidOf(keys, permissions) ==> !IsAction(Normalize(r.action))
  {
    if keys != [] {
      InvalidHaveNone(keys[1..], permissions, r);
    }
  }

  lemma {:induction false} RulesAddUp(keys: seq<string>, permissions: map<string, string>)
    requires forall x :: x in keys ==> x in permissions
    ensures |EntriesOf(keys, permissions)| + |InvalidOf(keys, permissions)| == |keys|
  {
    if keys != [] {
      RulesAddUp(keys[1..], permissions);
    }
  }

  // ---------- the most specific rule ----------

  /** The key is a pattern, and the scope starts with what stands before its star. */
  predicate Covers(key: string, scope: string) {
    key != "" && key[|key| - 1] == '*' && key[..|key| - 1] <= scope
  }

  /** How specifically a rule speaks about a call: -1 not at all, 0 about the bare tool
      name, else about the scope, by pattern or, above all patterns, exactly. */
  function Rank(e: Entry, name: string, scope: string): int {
    if scope != "" && e.key == scope then |scope| + 2
    else if scope != "" && Covers(e.key, scope) then |e.key|
    else if e.key == name then 0
    else -1
  }

  /** No rule speaks more specifically than r does, and none before it as specifically. */
  ghost predicate IsAnswer(entries: seq<Entry>, name: string, scope: string, r: Option<Entry>) {
    if r.None? then forall e :: e in entries ==> Rank(e, name, scope) < 0
    else exists i :: 0 <= i < |entries| && entries[i] == r.value && IsBest(entries, name, scope, i)
  }

  ghost predicate IsBest(entries: seq<Entry>, name: string, scope: string, i: nat)
    requires i < |entries|
  {
    && Rank(entries[i], name, scope) >= 0
    && (forall j :: 0 <= j < |entries| ==> Rank(entries[j], name, scope) <= Rank(entries[i], name, scope))
    && (forall j :: 0 <= j < i ==> Rank(entries[j], name, scope) < Rank(entries[i], name, scope))
  }

  method Lookup(entries: seq<Entry>, name: string, scope: string) returns (r: Option<Entry>)
    ensures IsAnswer(entries, Normalize(name), Normalize(scope), r)
  {
    hide Normalize;
    var n, s := Normalize(name), Normalize(scope);
    var best := None;
    var bestLen := -1;
    ghost var at := 0;
    for i := 0 to |entries|
      invariant bestLen < |s| + 2
      invariant best.None? <==> bestLen < 0
      invariant best.None? ==> forall j :: 0 <= j < i ==> Rank(entries[j], n, s) < 0
      invariant best.Some? ==> 0 <= at < i && entries[at] == best.value && IsBest(entries[..i], n, s, at)
      invariant best.Some? ==> bestLen == Rank(entries[at], n, s)
    {
      var e := entries[i];
      if s != "" && e.key == s {
        assert forall j :: 0 <= j < i ==> Rank(entries[j], n, s) < Rank(e, n, s) by {
          if best.Some? {
            assert forall j :: 0 <= j < i ==> entries[..i][j] == entries[j];
          }
        }
        AtMostExact(n, s);
        assert IsBest(entries, n, s, i);
        return Some(e);
      } else if s != "" && Covers(e.key, s) {
        if |e.key| > bestLen {
          assert best.Some? ==> forall j :: 0 <= j < i ==> entries[..i][j] == entries[j];
          best, bestLen, at := Some(e), |e.key|, i;
        }
      } else if e.key == n {
        if bestLen < 0 {
          best, bestLen, at := Some(e), 0, i;
        }
      }
      assert forall j :: 0 <= j < i ==> entries[..i + 1][j] == entries[j] == entries[..i][j];
    }
    assert entries[..|entries|] == entries;
    r := best;
  }

  lemma AtMostExact(name: string, scope: string)
    ensures forall e: Entry :: Rank(e, name, scope) <= |scope| + 2
  {
  }

  /** What the ranks mean: the exact scope wins over every pattern, the longest matching
      pattern over shorter ones and over the bare name, the bare name over nothing. */
  lemma MostSpecificWins(entries: seq<Entry>, name: string, scope: string, r: Option<Entry>)
    requires IsAnswer(entries, name, scope, r)
    ensures (exists e :: e in entries && scope != "" && e.key == scope) ==> r.Some? && r.value.key == scope
    ensures (forall e :: e in entries ==> scope == "" || e.key != scope) ==>
              forall e :: e in entries && scope != "" && Covers(e.key, scope) ==>
                r.Some? && Covers(r.value.key, scope) && |e.key| <= |r.value.key|
    ensures (forall e :: e in entries ==> scope == "" || (e.key != scope && !Covers(e.key, scope))) ==>
              if exists e :: e in entries && e.key == name then r.Some? && r.value.key == name else r.None?
    ensures r.Some? ==> r.value in entries
  {
    hide Covers;
    forall e | e in entries ensures r.Some? ==> Rank(e, name, scope) <= Rank(r.value, name, scope) {
      var j :| 0 <= j < |entries| && entries[j] == e;
    }
    CoversBounds(entries, scope);
  }

  lemma CoversBounds(entries: seq<Entry>, scope: string)
    ensures forall e :: e in entries && Covers(e.key, scope) ==> 0 < |e.key| < |scope| + 2
  {
  }

  /** No two different rules share a key once normalized. */
  ghost predicate OneRulePerKey(entries: seq<Entry>) {
    forall a, b :: a in entries && b in entries && a.key == b.key ==> a == b
  }

  lemma SameRankSameKey(a: Entry, b: Entry, name: string, scope: string)
    requires Rank(a, name, scope) == Rank(b, name, scope) >= 0
    ensures a.key == b.key
  {
    if scope != "" && a.key != scope && b.key != scope && Covers(a.key, scope) && Covers(b.key, scope) {
      assert a.key == scope[..|a.key| - 1] + "*" == b.key;
    }
  }

  lemma SameAnswer(entries: seq<Entry>, other: seq<Entry>, name: string, scope: string, r: Option<Entry>, q: Option<Entry>)
    requires multiset(entries) == multiset(other) && OneRulePerKey(entries)
    requires IsAnswer(entries, name, scope, r) && IsAnswer(other, name, scope, q)
    ensures r == q
  {
    SameElements(entries, other);
    hide Rank;
    assert q.Some? ==> q.value in entries;
    if r.Some? {
      var i :| 0 <= i < |entries| && entries[i] == r.value && IsBest(entries, name, scope, i);
      assert r.value in other;
      var k :| 0 <= k < |other| && other[k] == r.value;
      if q.Some? {
        var j :| 0 <= j < |other| && other[j] == q.value && IsBest(other, name, scope, j);
        assert q.value in entries;
        var m :| 0 <= m < |entries| && entries[m] == q.value;
        SameRankSameKey(r.value, q.value, name, scope);
      }
    }
  }

  lemma MoveFirst(entries: seq<Entry>, e: Entry) returns (other: seq<Entry>)
    requires e in entries
    ensures multiset(other) == multiset(entries) && IsAnswer(other, e.key, "", Some(e))
  {
    var i :| 0 <= i < |entries| && entries[i] == e;
    other := [e] + (entries[..i] + entries[i + 1..]);
    assert entries == entries[..i] + [e] + entries[i + 1..];
    assert other[0] == e && IsBest(other, e.key, "", 0);
  }

  /** A table answers alike whatever order its rules stand in. */
  ghost predicate AnswersAlike(entries: seq<Entry>) {
    forall p, q, name, scope, r, t ::
      multiset(p) == multiset(entries) && multiset(q) == multiset(entries) && IsAnswer(p, name, scope, r) && IsAnswer(q, name, scope, t)
      ==> r == t
  }

  /** The answer is independent of the order of the rules exactly if no two different
      rules share a normalized key. */
  lemma OrderMattersOnlyForSharedKeys(entries: seq<Entry>)
    ensures AnswersAlike(entries) <==> OneRulePerKey(entries)
  {
    hide IsAnswer;
    if OneRulePerKey(entries) {
      forall p, q, name, scope, r, t |
        multiset(p) == multiset(entries) && multiset(q) == multiset(entries) && IsAnswer(p, name, scope, r) && IsAnswer(q, name, scope, t)
        ensures r == t
      {
        SameElements(p, entries);
        SameAnswer(p, q, name, scope, r, t);
      }
    } else {
      var a, b :| a in entries && b in entries && a.key == b.key && a != b;
      var p := MoveFirst(entries, a);
      var q := MoveFirst(entries, b);
      assert !(AnswersAlike(entries));
    }
  }
}
