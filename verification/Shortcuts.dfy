/** Shortcut matching and the text under which a configured shortcut is filed.

    The text is that of the pre-keys, the final key and the way it goes, and tells two shortcuts
    apart exactly if one of these does; so a map by text holds one shortcut for each trigger. */
module Shortcuts {
  import opened FiniteSets
  import opened KeyTypes

  predicate IsKeyMatch(k: ShortcutKey, e: KeyEvent) {
    && e.keyCode == k.finalKey && k.triggerType == e.action
    && |k.preKeys| + 1 == |Codes(e)|
    && forall i | 0 <= i < |Codes(e)| :: Codes(e)[i] == e.keyCode || Codes(e)[i] in k.preKeys
  }

  predicate Distinct(s: seq<int>) { forall i, j | 0 <= i < j < |s| :: s[i] != s[j] }

  function Elements(s: seq<int>): set<int> { set i | 0 <= i < |s| :: s[i] }

  lemma {:induction false} DistinctSize(s: seq<int>)
    requires Distinct(s)
    ensures |Elements(s)| == |s|
  {
    if s == [] {
      assert Elements(s) == {};
    } else {
      var n := |s| - 1;
      var init := s[..n];
      assert Distinct(init) by { assert forall i | 0 <= i < n :: init[i] == s[i]; }
      DistinctSize(init);
      assert Elements(s) == Elements(init) + {s[n]} by {
        forall x ensures x in Elements(s) <==> x in Elements(init) || x == s[n] {
          if x in Elements(s) && x != s[n] { var i :| 0 <= i < |s| && s[i] == x; assert init[i] == x; }
          if x in Elements(init) { var i :| 0 <= i < n && init[i] == x; assert s[i] == x; }
          if x == s[n] { assert s[n] in Elements(s); }
        }
      }
      assert s[n] !in Elements(init) by {
        forall i | 0 <= i < n ensures init[i] != s[n] { assert init[i] == s[i]; }
      }
    }
  }

  /** For an event whose key items are distinct and include its own key, a shortcut matches
      exactly when key and trigger agree and its pre-keys are the other items as a set, in
      whatever order they went down. */
  lemma MatchIsSetEquality(k: ShortcutKey, e: KeyEvent)
    requires Distinct(Codes(e)) && e.keyCode in Codes(e)
    ensures IsKeyMatch(k, e) <==>
              e.keyCode == k.finalKey && e.action == k.triggerType && k.preKeys == Elements(Codes(e)) - {e.keyCode}
  {
    var others := Elements(Codes(e)) - {e.keyCode};
    DistinctSize(Codes(e));
    assert e.keyCode in Elements(Codes(e));
    assert |others| == |Codes(e)| - 1;
    if IsKeyMatch(k, e) {
      assert others <= k.preKeys;
      SubsetOfSameSize(others, k.preKeys);
    } else if k.preKeys == others {
      forall i | 0 <= i < |Codes(e)| ensures Codes(e)[i] == e.keyCode || Codes(e)[i] in k.preKeys {
        assert Codes(e)[i] in Elements(Codes(e));
      }
    }
  }

  predicate SameTrigger(a: ShortcutKey, b: ShortcutKey) {
    a.preKeys == b.preKeys && a.finalKey == b.finalKey && a.triggerType == b.triggerType
  }

  // ---------- the text of a shortcut ----------

  function Digits(n: nat): string {
    if n < 10 then [Digit(n)] else Digits(n / 10) + [Digit(n % 10)]
  }

  function Digit(d: nat): char
    requires d < 10
  {
    '0' + d as char
  }

  /** How a stream writes an integer. */
  function Decimal(i: int): string { if i < 0 then "-" + Digits(-i) else Digits(i) }

  predicate Plain(s: string) { forall i | 0 <= i < |s| :: s[i] != ',' }

  lemma {:induction false} DigitsPlain(n: nat)
    ensures |Digits(n)| > 0 && forall i | 0 <= i < |Digits(n)| :: '0' <= Digits(n)[i] <= '9'
  {
    if n >= 10 { DigitsPlain(n / 10); }
  }

  lemma {:induction false} DigitsInjective(m: nat, n: nat)
    requires Digits(m) == Digits(n)
    ensures m == n
  {
    DigitsPlain(m / 10);
    DigitsPlain(n / 10);
    var d := Digits(m);
    if m >= 10 && n >= 10 {
      assert Digits(m / 10) == d[..|d| - 1] == Digits(n / 10);
      DigitsInjective(m / 10, n / 10);
      assert Digit(m % 10) == d[|d| - 1] == Digit(n % 10);
    } else if m < 10 && n < 10 {
      assert Digit(m) == d[0] == Digit(n);
    }
  }

  lemma DecimalPlain(i: int)
    ensures Plain(Decimal(i))
  {
    DigitsPlain(if i < 0 then -i else i);
  }

  lemma SignShows(i: int)
    ensures Decimal(i) != [] && (i < 0 <==> Decimal(i)[0] == '-')
  {
    DigitsPlain(if i < 0 then -i else i);
  }

  lemma DecimalInjective(i: int, j: int)
    requires Decimal(i) == Decimal(j)
    ensures i == j
  {
    SignShows(i);
    SignShows(j);
    if i < 0 && j < 0 {
      assert Decimal(i)[1..] == Digits(-i) && Decimal(j)[1..] == Digits(-j);
      DigitsInjective(-i, -j);
    } else if i >= 0 && j >= 0 {
      DigitsInjective(i, j);
    }
  }

  /** Numbers separated by commas. */
  function Join(ns: seq<int>): string
    requires ns != []
  {
    if |ns| == 1 then Decimal(ns[0]) else Decimal(ns[0]) + "," + Join(ns[1..])
  }

  function GenerateKey(k: ShortcutKey): string {
    Join(Ascending(k.preKeys) + [k.finalKey, k.triggerType])
  }

  /** The first comma splits a text in one way. */
  lemma CommaSplits(a: string, b: string, x: string, y: string)
    requires Plain(a) && Plain(b) && a + "," + x == b + "," + y
    ensures a == b && x == y
  {
    var s := a + "," + x;
    var t := b + "," + y;
    assert s[|a|] == ',' && t[|b|] == ',';
    assert s[..|a|] == a && t[..|b|] == b;
    assert s[|a| + 1..] == x && t[|b| + 1..] == y;
  }

  /** Only a single number is written without a comma. */
  lemma JoinPlain(ns: seq<int>)
    requires ns != []
    ensures Plain(Join(ns)) <==> |ns| == 1
  {
    DecimalPlain(ns[0]);
    if |ns| > 1 { assert Join(ns)[|Decimal(ns[0])|] == ','; }
  }

  lemma {:induction false} JoinInjective(ms: seq<int>, ns: seq<int>)
    requires ms != [] && ns != [] && Join(ms) == Join(ns)
    ensures ms == ns
    decreases |ms|
  {
    JoinPlain(ms);
    JoinPlain(ns);
    if |ms| == 1 && |ns| == 1 {
      DecimalInjective(ms[0], ns[0]);
    } else if |ms| > 1 && |ns| > 1 {
      DecimalPlain(ms[0]);
      DecimalPlain(ns[0]);
      CommaSplits(Decimal(ms[0]), Decimal(ns[0]), Join(ms[1..]), Join(ns[1..]));
      DecimalInjective(ms[0], ns[0]);
      JoinInjective(ms[1..], ns[1..]);
      assert ms == [ms[0]] + ms[1..] && ns == [ns[0]] + ns[1..];
    }
  }

  /** Two shortcuts are filed under the same text exactly when they have the same trigger. */
  lemma GenerateKeyInjective(a: ShortcutKey, b: ShortcutKey)
    ensures GenerateKey(a) == GenerateKey(b) <==> SameTrigger(a, b)
  {
    var sa, sb := Ascending(a.preKeys), Ascending(b.preKeys);
    if GenerateKey(a) == GenerateKey(b) {
      var ta, tb := sa + [a.finalKey, a.triggerType], sb + [b.finalKey, b.triggerType];
      JoinInjective(ta, tb);
      assert |sa| == |sb| && sa == ta[..|sa|] && sb == tb[..|sb|];
      assert ta[|sa|] == a.finalKey && ta[|sa| + 1] == a.triggerType;
      assert a.preKeys == b.preKeys by { assert forall x :: x in a.preKeys <==> x in sa; }
    }
  }

  /** Of the shortcuts filed in one map at most one matches an event. */
  lemma AtMostOneMatches(m: map<string, ShortcutKey>, x: string, y: string, e: KeyEvent)
    requires forall t | t in m :: t == GenerateKey(m[t])
    requires Distinct(Codes(e)) && e.keyCode in Codes(e)
    requires x in m && y in m && IsKeyMatch(m[x], e) && IsKeyMatch(m[y], e)
    ensures x == y
  {
    MatchIsSetEquality(m[x], e);
    MatchIsSetEquality(m[y], e);
    GenerateKeyInjective(m[x], m[y]);
  }

  /** No shortcut before the j-th has its trigger. */
  predicate FirstOf(ks: seq<ShortcutKey>, j: nat)
    requires j < |ks|
  {
    forall h | 0 <= h < j :: !SameTrigger(ks[h], ks[j])
  }

  /** The texts of the configured shortcuts. */
  function Texts(ks: seq<ShortcutKey>): seq<string> {
    seq(|ks|, i requires 0 <= i < |ks| => GenerateKey(ks[i]))
  }

  /** Equal texts mean equal triggers. */
  ghost predicate Telling(ks: seq<ShortcutKey>, ts: seq<string>) {
    |ts| == |ks| && forall i, j | 0 <= i < |ks| && 0 <= j < |ks| :: ts[i] == ts[j] <==> SameTrigger(ks[i], ks[j])
  }

  lemma TextsTell(ks: seq<ShortcutKey>)
    ensures Telling(ks, Texts(ks))
  {
    var ts := Texts(ks);
    forall i, j | 0 <= i < |ks| && 0 <= j < |ks| ensures ts[i] == ts[j] <==> SameTrigger(ks[i], ks[j]) {
      GenerateKeyInjective(ks[i], ks[j]);
    }
  }

  /** The entry filed under `t` is the first shortcut configured with its trigger. */
  ghost predicate FiledFirst(ks: seq<ShortcutKey>, ts: seq<string>, n: nat, t: string, k: ShortcutKey)
    requires n <= |ks| == |ts|
  {
    exists j :: 0 <= j < n && t == ts[j] && k == ks[j] && FirstOf(ks, j)
  }

  /** The first `n` shortcuts are filed in `m`. */
  ghost predicate Filed(ks: seq<ShortcutKey>, ts: seq<string>, n: nat, m: map<string, ShortcutKey>)
    requires n <= |ks| == |ts|
  {
    && (forall t | t in m :: FiledFirst(ks, ts, n, t, m[t]))
    && (forall i | 0 <= i < n :: ts[i] in m)
  }

  lemma FileOne(ks: seq<ShortcutKey>, ts: seq<string>, n: nat, m: map<string, ShortcutKey>)
    requires Telling(ks, ts) && n < |ks| && Filed(ks, ts, n, m)
    ensures Filed(ks, ts, n + 1, if ts[n] in m then m else m[ts[n] := ks[n]])
  {
    var r := if ts[n] in m then m else m[ts[n] := ks[n]];
    forall t | t in r ensures FiledFirst(ks, ts, n + 1, t, r[t]) {
      if t in m {
        var j :| 0 <= j < n && t == ts[j] && m[t] == ks[j] && FirstOf(ks, j);
        assert 0 <= j < n + 1 && t == ts[j] && r[t] == ks[j] && FirstOf(ks, j);
      } else {
        assert FirstOf(ks, n);
      }
    }
  }

  /** The filing loop of ParseShortcutKeys over the shortcuts it could convert: every shortcut
      finds its text in the map, and every entry is the first one configured with its trigger. */
  method ParseShortcutKeys(ks: seq<ShortcutKey>) returns (m: map<string, ShortcutKey>)
    ensures Filed(ks, Texts(ks), |ks|, m)
  {
    m := map[];
    ghost var ts := Texts(ks);
    TextsTell(ks);
    for n := 0 to |ks|
      invariant Filed(ks, ts, n, m)
    {
      var key := GenerateKey(ks[n]);
      assert key == ts[n];
      FileOne(ks, ts, n, m);
      if key !in m {
        m := m[key := ks[n]];
      }
    }
  }

  lemma FiledUnder(ks: seq<ShortcutKey>, ts: seq<string>, m: map<string, ShortcutKey>, i: nat)
    requires Telling(ks, ts) && i < |ks| && Filed(ks, ts, |ks|, m)
    ensures ts[i] in m && SameTrigger(m[ts[i]], ks[i])
    ensures FirstOf(ks, i) ==> m[ts[i]] == ks[i]
  {
    assert ts[i] in m && FiledFirst(ks, ts, |ks|, ts[i], m[ts[i]]);
    var j :| 0 <= j < |ks| && ts[i] == ts[j] && m[ts[i]] == ks[j] && FirstOf(ks, j);
    assert SameTrigger(ks[i], ks[j]);
    assert i != j && FirstOf(ks, i) ==> i < j;
  }

  /** Parsing drops only true duplicates: what is filed under a shortcut's text has its trigger,
      and is the shortcut itself if none before it has that trigger. */
  lemma OnlyDuplicatesAreDropped(ks: seq<ShortcutKey>, m: map<string, ShortcutKey>, i: nat)
    requires i < |ks| && Filed(ks, Texts(ks), |ks|, m)
    ensures GenerateKey(ks[i]) in m && SameTrigger(m[GenerateKey(ks[i])], ks[i])
    ensures FirstOf(ks, i) ==> m[GenerateKey(ks[i])] == ks[i]
  {
    var ts := Texts(ks);
    TextsTell(ks);
    FiledUnder(ks, ts, m, i);
    assert ts[i] == GenerateKey(ks[i]);
  }
}
