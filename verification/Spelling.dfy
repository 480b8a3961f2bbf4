/** What normalizing a rule or a tool name achieves: surrounding spaces and the case of
    letters make no difference, and nothing else is lost. */
module Spellings {
  import opened Outcome
  import opened Order
  import opened Ranks
  import opened Permissions

  predicate SameLetter(x: char, y: char) {
    x == y || ('A' <= x <= 'Z' && y as int == x as int + 32) || ('A' <= y <= 'Z' && x as int == y as int + 32)
  }

  /** What stands in s from i to j is all of it but the spaces around. */
  ghost predicate Core(s: string, i: nat, j: nat) {
    && i <= j <= |s|
    && (forall k :: 0 <= k < i ==> IsSpace(s[k])) && (forall k :: j <= k < |s| ==> IsSpace(s[k]))
    && (i < j ==> !IsSpace(s[i]) && !IsSpace(s[j - 1]))
  }

  ghost predicate SameLetters(a: string, b: string) {
    |a| == |b| && forall k :: 0 <= k < |a| ==> SameLetter(a[k], b[k])
  }

  /** Written alike: letter for letter, in either case, between whatever spaces. */
  ghost predicate Alike(a: string, b: string) {
    exists i: nat, j: nat, m: nat, n: nat :: Core(a, i, j) && Core(b, m, n) && SameLetters(a[i..j], b[m..n])
  }

  ghost predicate Blank(s: string) {
    forall k :: 0 <= k < |s| ==> IsSpace(s[k])
  }

  // ---------- trimming finds the core ----------

  lemma {:induction false} TrimLeftCuts(s: string) returns (i: nat)
    ensures i <= |s| && TrimLeft(s) == s[i..] && (forall k :: 0 <= k < i ==> IsSpace(s[k])) && (i < |s| ==> !IsSpace(s[i]))
  {
    i := 0;
    if s != [] && IsSpace(s[0]) {
      i := TrimLeftCuts(s[1..]);
      forall k | 0 <= k < i + 1 ensures IsSpace(s[k]) {
        assert k > 0 ==> s[k] == s[1..][k - 1];
      }
      i := i + 1;
    }
  }

  lemma {:induction false} TrimRightCuts(s: string) returns (j: nat)
    ensures j <= |s| && TrimRight(s) == s[..j] && (forall k :: j <= k < |s| ==> IsSpace(s[k])) && (j > 0 ==> !IsSpace(s[j - 1]))
  {
    j := |s|;
    if s != [] && IsSpace(s[|s| - 1]) {
      j := TrimRightCuts(s[..|s| - 1]);
    }
  }

  lemma TrimsToCore(s: string) returns (i: nat, j: nat)
    ensures Core(s, i, j) && TrimRight(TrimLeft(s)) == s[i..j]
  {
    i := TrimLeftCuts(s);
    var t := s[i..];
    var n := TrimRightCuts(t);
    j := i + n;
    forall k | j <= k < |s| ensures IsSpace(s[k]) {
      assert s[k] == t[k - i];
    }
    if n > 0 {
      assert s[j - 1] == t[n - 1];
    }
  }

  lemma CoreIsOne(s: string, i: nat, j: nat, m: nat, n: nat)
    requires Core(s, i, j) && Core(s, m, n)
    ensures s[i..j] == s[m..n]
  {
    if i < j {
      assert m <= i && j <= n;
      assert m < n;
    }
  }

  lemma LowerTells(a: string, b: string)
    ensures Lower(a) == Lower(b) <==> SameLetters(a, b)
  {
    if Lower(a) == Lower(b) {
      forall k | 0 <= k < |a| ensures SameLetter(a[k], b[k]) {
        assert Lower(a)[k] == Lower(b)[k];
      }
    }
  }

  /** Normalizing tells two strings apart exactly if they are not written alike. */
  lemma NormalizeTells(a: string, b: string)
    ensures Normalize(a) == Normalize(b) <==> Alike(a, b)
  {
    hide SameLetters, Lower, TrimLeft, TrimRight;
    var i, j := TrimsToCore(a);
    var m, n := TrimsToCore(b);
    LowerTells(TrimRight(TrimLeft(a)), TrimRight(TrimLeft(b)));
    if Alike(a, b) {
      var i2: nat, j2: nat, m2: nat, n2: nat :| Core(a, i2, j2) && Core(b, m2, n2) && SameLetters(a[i2..j2], b[m2..n2]);
      CoreIsOne(a, i, j, i2, j2);
      CoreIsOne(b, m, n, m2, n2);
    }
  }

  /** A normalized string has no capital and no space around it, and is alike to what it
      came from. */
  lemma NormalForm(s: string)
    ensures var t := Normalize(s);
            && (forall k :: 0 <= k < |t| ==> !('A' <= t[k] <= 'Z'))
            && (t != [] ==> !IsSpace(t[0]) && !IsSpace(t[|t| - 1]))
            && (t == [] <==> Blank(s)) && Alike(s, t)
  {
    var i, j := TrimsToCore(s);
    var t := Normalize(s);
    assert Core(t, 0, |t|);
    assert t[0..|t|] == t;
    assert SameLetters(s[i..j], t[0..|t|]);
    if Blank(s) {
      assert i == j;
    }
  }

  // ---------- rules as they are written ----------

  /** An action is accepted exactly if it is written like one of the three, and is then
      read as that one. */
  lemma ActionAsWritten(k: string, action: string)
    ensures IsAction(Normalize(action)) <==> Alike(action, "allow") || Alike(action, "ask") || Alike(action, "deny")
    ensures forall a :: a in {"allow", "ask", "deny"} && Alike(action, a) ==> RuleOf(k, action).action == a
  {
    hide Alike, Normalize;
    PlainWords();
    NormalizeTells(action, "allow");
    NormalizeTells(action, "ask");
    NormalizeTells(action, "deny");
  }

  lemma PlainWords()
    ensures Normalize("allow") == "allow" && Normalize("ask") == "ask" && Normalize("deny") == "deny"
  {
    PlainWord("allow");
    PlainWord("ask");
    PlainWord("deny");
  }

  lemma PlainWord(s: string)
    requires s != [] && forall k :: 0 <= k < |s| ==> 'a' <= s[k] <= 'z'
    ensures Normalize(s) == s
  {
  }

  /** A rule whose key is written like the tool's name speaks about every call of it; one
      written like the call's scope speaks about it as no pattern does. */
  lemma RuleAsWritten(k: string, action: string, name: string, scope: string)
    ensures var rank := Rank(RuleOf(k, action), Normalize(name), Normalize(scope));
            && (Alike(k, name) ==> rank >= 0)
            && (Alike(k, scope) && !Blank(scope) <==> rank == |Normalize(scope)| + 2)
            && (Blank(scope) ==> (rank >= 0 <==> Alike(k, name)))
    ensures RuleOf(k, action).display == k
  {
    hide Alike, Normalize, Blank;
    NormalizeTells(k, name);
    NormalizeTells(k, scope);
    NormalForm(scope);
  }

  /** Names and scopes written alike are answered alike. */
  lemma AnswersAsWritten(entries: seq<Entry>, name: string, scope: string, name2: string, scope2: string, r: Option<Entry>)
    requires Alike(name, name2) && Alike(scope, scope2)
    ensures IsAnswer(entries, Normalize(name), Normalize(scope), r) <==> IsAnswer(entries, Normalize(name2), Normalize(scope2), r)
  {
    hide Alike, Normalize, IsAnswer;
    NormalizeTells(name, name2);
    NormalizeTells(scope, scope2);
  }

  /** A pattern covers the scopes that go on from what stands before its star. */
  lemma CoversExactly(key: string, scope: string)
    ensures Covers(key, scope) <==> exists stem, rest :: key == stem + "*" && scope == stem + rest
  {
    if Covers(key, scope) {
      var stem := key[..|key| - 1];
      assert key == stem + "*" && scope == stem + scope[|stem|..];
    }
    if stem, rest :| key == stem + "*" && scope == stem + rest {
      assert key[..|key| - 1] == stem;
    }
  }

  lemma {:induction false} EntryFrom(keys: seq<string>, permissions: map<string, string>, i: nat) returns (m: nat)
    requires (forall k :: k in keys ==> k in permissions) && i < |EntriesOf(keys, permissions)|
    ensures m < |keys| && EntriesOf(keys, permissions)[i] == RuleOf(keys[m], permissions[keys[m]])
    ensures IsAction(Normalize(permissions[keys[m]]))
  {
    hide Normalize, IsAction, RuleOf;
    assert keys[0] in keys;
    if IsAction(Normalize(permissions[keys[0]])) {
      if i == 0 {
        m := 0;
      } else {
        m := EntryFrom(keys[1..], permissions, i - 1);
        m := m + 1;
      }
    } else {
      m := EntryFrom(keys[1..], permissions, i);
      m := m + 1;
    }
  }

  /** The table's rules stand in the order of their keys as written, each under that key,
      its action one of the three. */
  lemma {:induction false} EntriesInOrder(keys: seq<string>, permissions: map<string, string>)
    requires (forall k :: k in keys ==> k in permissions) && Ascending(keys)
    ensures forall i :: 0 <= i < |EntriesOf(keys, permissions)| ==>
              var e := EntriesOf(keys, permissions)[i];
              e.display in keys && e.action in {"allow", "ask", "deny"} && Alike(e.key, e.display) && Alike(e.action, permissions[e.display])
    ensures forall i, j :: 0 <= i < j < |EntriesOf(keys, permissions)| ==>
              Less(EntriesOf(keys, permissions)[i].display, EntriesOf(keys, permissions)[j].display)
  {
    if keys != [] {
      assert keys[0] in keys;
      EntriesInOrder(keys[1..], permissions);
      var rest := EntriesOf(keys[1..], permissions);
      ReadAsWritten(keys[0], permissions[keys[0]]);
      hide Normalize, Alike;
      forall i | 0 <= i < |rest| ensures Less(keys[0], rest[i].display) {
        var m := EntryFrom(keys[1..], permissions, i);
        assert keys[1..][m] == keys[m + 1];
      }
    }
  }

  /** The rules set aside stand in that order too, under keys of the table. */
  lemma {:induction false} InvalidInOrder(keys: seq<string>, permissions: map<string, string>)
    requires (forall k :: k in keys ==> k in permissions) && Ascending(keys)
    ensures forall i :: 0 <= i < |InvalidOf(keys, permissions)| ==> InvalidOf(keys, permissions)[i].key in keys
    ensures forall i, j :: 0 <= i < j < |InvalidOf(keys, permissions)| ==>
              Less(InvalidOf(keys, permissions)[i].key, InvalidOf(keys, permissions)[j].key)
  {
    if keys != [] {
      hide Normalize, IsAction, Less;
      assert keys[0] in keys;
      InvalidInOrder(keys[1..], permissions);
      var rest := InvalidOf(keys[1..], permissions);
      forall i | 0 <= i < |rest| ensures Less(keys[0], rest[i].key) {
        var m :| 0 <= m < |keys[1..]| && keys[1..][m] == rest[i].key;
        assert keys[1..][m] == keys[m + 1];
      }
    }
  }

  lemma ReadAsWritten(k: string, action: string)
    ensures Alike(Normalize(k), k) && Alike(Normalize(action), action)
  {
    hide Alike, Normalize;
    NormalizeTwice(k);
    NormalizeTwice(action);
    NormalizeTells(Normalize(k), k);
    NormalizeTells(Normalize(action), action);
  }

  lemma NormalizeTwice(s: string)
    ensures Normalize(Normalize(s)) == Normalize(s)
  {
    hide Alike, Normalize, Blank;
    NormalForm(s);
    NormalizeTells(s, Normalize(s));
  }
}
