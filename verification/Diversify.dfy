/**
 * Choosing the top k assets without letting one shooting session take them all: sessions take
 * turns, the best session first.
 */
module Diversify {
  import opened StableSort

  datatype SessionKey = SessionKey(text: string)

  datatype Ranked<T> = Ranked(item: T, score: real, sessionKey: SessionKey)

  // ---------- Sessions ----------

  function OfSession<T>(s: seq<Ranked<T>>, key: SessionKey): seq<Ranked<T>> {
    if |s| == 0 then []
    else
      var last := s[|s| - 1];
      OfSession(s[..|s| - 1], key) + if last.sessionKey == key then [last] else []
  }

  lemma OfSessionPush<T>(s: seq<Ranked<T>>, x: Ranked<T>, key: SessionKey)
    ensures OfSession(s + [x], key) == OfSession(s, key) + if x.sessionKey == key then [x] else []
  {
    assert (s + [x])[..|s + [x]| - 1] == s;
  }

  /** Session keys in order of first appearance. */
  function Keys<T>(s: seq<Ranked<T>>): seq<SessionKey> {
    if |s| == 0 then []
    else
      var before, key := Keys(s[..|s| - 1]), s[|s| - 1].sessionKey;
      if key in before then before else before + [key]
  }

  function SessionsOf<T>(ranked: seq<Ranked<T>>, keys: seq<SessionKey>): (sessions: seq<seq<Ranked<T>>>)
    ensures |sessions| == |keys|
  {
    seq(|keys|, i requires 0 <= i < |keys| => OfSession(ranked, keys[i]))
  }

  lemma {:induction false} KeyMember<T>(s: seq<Ranked<T>>, key: SessionKey)
    ensures key in Keys(s) <==> OfSession(s, key) != []
  {
    if |s| > 0 {
      KeyMember(s[..|s| - 1], key);
    }
  }

  lemma {:induction false} KeysNoRepeat<T>(s: seq<Ranked<T>>)
    ensures NoRepeat(Keys(s))
  {
    if |s| > 0 {
      KeysNoRepeat(s[..|s| - 1]);
    }
  }

  lemma {:induction false} KeyOfElement<T>(s: seq<Ranked<T>>, m: nat)
    requires m < |s|
    ensures s[m].sessionKey in Keys(s)
    decreases |s|
  {
    if m < |s| - 1 {
      KeyOfElement(s[..|s| - 1], m);
    }
  }

  lemma KeysOfAll<T>(s: seq<Ranked<T>>)
    ensures NoRepeat(Keys(s)) && KeysIn(s, Keys(s))
    ensures forall key :: key in Keys(s) <==> OfSession(s, key) != []
  {
    KeysNoRepeat(s);
    forall m | 0 <= m < |s| ensures s[m].sessionKey in Keys(s) {
      KeyOfElement(s, m);
    }
    forall key ensures key in Keys(s) <==> OfSession(s, key) != [] {
      KeyMember(s, key);
    }
  }

  lemma {:induction false} SessionsHaveOneKey<T>(s: seq<Ranked<T>>, key: SessionKey)
    ensures forall m :: 0 <= m < |OfSession(s, key)| ==> OfSession(s, key)[m].sessionKey == key
  {
    if |s| > 0 {
      SessionsHaveOneKey(s[..|s| - 1], key);
    }
  }

  // ---------- Counting by session ----------

  function SumOver<T>(s: seq<Ranked<T>>, keys: seq<SessionKey>): nat {
    if |keys| == 0 then 0 else |OfSession(s, keys[0])| + SumOver(s, keys[1..])
  }

  lemma {:induction false} SumPush<T>(s: seq<Ranked<T>>, x: Ranked<T>, keys: seq<SessionKey>)
    requires NoRepeat(keys)
    ensures SumOver(s + [x], keys) == SumOver(s, keys) + if x.sessionKey in keys then 1 else 0
    decreases |keys|
  {
    if |keys| > 0 {
      var first, rest := keys[0], keys[1..];
      OfSessionPush(s, x, first);
      SumPush(s, x, rest);
      assert forall j :: 0 <= j < |rest| ==> rest[j] == keys[j + 1] && rest[j] != first;
      assert x.sessionKey in keys <==> x.sessionKey == first || x.sessionKey in rest;
    }
  }

  lemma {:induction false} SumOfNothing<T>(keys: seq<SessionKey>)
    ensures SumOver<T>([], keys) == 0
  {
    if |keys| > 0 {
      SumOfNothing<T>(keys[1..]);
    }
  }

  ghost predicate KeysIn<T>(s: seq<Ranked<T>>, keys: seq<SessionKey>) {
    forall m :: 0 <= m < |s| ==> s[m].sessionKey in keys
  }

  /** Every element belongs to exactly one session. */
  lemma {:induction false} SumIsLength<T>(s: seq<Ranked<T>>, keys: seq<SessionKey>)
    requires NoRepeat(keys) && KeysIn(s, keys)
    ensures SumOver(s, keys) == |s|
    decreases |s|
  {
    if |s| == 0 {
      SumOfNothing<T>(keys);
    } else {
      var init, last := s[..|s| - 1], s[|s| - 1];
      assert s == init + [last] && last.sessionKey in keys;
      SumIsLength(init, keys);
      SumPush(init, last, keys);
    }
  }

  lemma {:induction false} SumEqual<T>(s: seq<Ranked<T>>, t: seq<Ranked<T>>, keys: seq<SessionKey>)
    requires forall key :: key in keys ==> OfSession(s, key) == OfSession(t, key)
    ensures SumOver(s, keys) == SumOver(t, keys)
    decreases |keys|
  {
    if |keys| > 0 {
      assert keys == [keys[0]] + keys[1..];
      SumEqual(s, t, keys[1..]);
    }
  }

  // ---------- Taking turns ----------

  /** The picks of rounds 0..round-1, then those of the first i sessions in the next round. */
  function Deal<T>(sessions: seq<seq<Ranked<T>>>, round: nat, i: nat): seq<Ranked<T>>
    requires i <= |sessions|
    decreases round, i
  {
    if i > 0 then
      Deal(sessions, round, i - 1) + if round < |sessions[i - 1]| then [sessions[i - 1][round]] else []
    else if round > 0 then Deal(sessions, round - 1, |sessions|)
    else []
  }

  function Min(a: nat, b: nat): nat { if a <= b then a else b }

  function Turns(round: nat, i: nat, j: nat): nat { if j < i then round + 1 else round }

  ghost predicate AreSessions<T>(sessions: seq<seq<Ranked<T>>>, keys: seq<SessionKey>) {
    && |sessions| == |keys| && NoRepeat(keys)
    && forall j, m :: 0 <= j < |sessions| && 0 <= m < |sessions[j]| ==> sessions[j][m].sessionKey == keys[j]
  }

  /** What has been dealt from each session is the front of its own list, one element a turn. */
  lemma {:induction false} DealtFront<T>(sessions: seq<seq<Ranked<T>>>, keys: seq<SessionKey>, round: nat, i: nat)
    requires i <= |sessions| && AreSessions(sessions, keys)
    ensures KeysIn(Deal(sessions, round, i), keys)
    ensures forall j :: 0 <= j < |keys| ==>
              OfSession(Deal(sessions, round, i), keys[j]) == sessions[j][..Min(|sessions[j]|, Turns(round, i, j))]
    decreases round, i
  {
    if i > 0 {
      DealtFront(sessions, keys, round, i - 1);
      DealtNext(sessions, keys, round, i);
    } else if round > 0 {
      DealtFront(sessions, keys, round - 1, |sessions|);
    }
  }

  lemma DealtNext<T>(sessions: seq<seq<Ranked<T>>>, keys: seq<SessionKey>, round: nat, i: nat)
    requires 0 < i <= |sessions| && AreSessions(sessions, keys)
    requires forall j :: 0 <= j < |keys| ==>
              OfSession(Deal(sessions, round, i - 1), keys[j])
              == sessions[j][..Min(|sessions[j]|, Turns(round, i - 1, j))]
    ensures forall j :: 0 <= j < |keys| ==>
              OfSession(Deal(sessions, round, i), keys[j]) == sessions[j][..Min(|sessions[j]|, Turns(round, i, j))]
  {
    var before, session := Deal(sessions, round, i - 1), sessions[i - 1];
    forall j | 0 <= j < |keys|
      ensures OfSession(Deal(sessions, round, i), keys[j]) == sessions[j][..Min(|sessions[j]|, Turns(round, i, j))]
    {
      if round < |session| {
        OfSessionPush(before, session[round], keys[j]);
        if j == i - 1 {
          assert session[..round + 1] == session[..round] + [session[round]];
        }
      } else {
        assert before + [] == before;
      }
    }
  }

  /** The first round deals the heads. */
  lemma {:induction false} HeadsFirst<T>(sessions: seq<seq<Ranked<T>>>, round: nat, i: nat)
    requires i <= |sessions| && forall j :: 0 <= j < |sessions| ==> |sessions[j]| > 0
    ensures var out, n := Deal(sessions, round, i), if round == 0 then i else |sessions|;
            n <= |out| && (round == 0 ==> |out| == n) && forall j :: 0 <= j < n ==> out[j] == sessions[j][0]
    decreases round, i
  {
    if i > 0 {
      HeadsFirst(sessions, round, i - 1);
    } else if round > 0 {
      HeadsFirst(sessions, round - 1, |sessions|);
    }
  }

  // ---------- The program ----------

  function HeadScore<T>(session: seq<Ranked<T>>): real {
    if |session| > 0 then session[0].score else 0.0
  }

  function Rate<T>(ranked: seq<Ranked<T>>): SessionKey -> real {
    key => -HeadScore(OfSession(ranked, key))
  }

  /** Keys, best session first; sessions of equal score keep the order of their first elements. */
  function BestFirst<T>(ranked: seq<Ranked<T>>): seq<SessionKey> {
    SortBy(Keys(ranked), Rate(ranked))
  }

  function Listed<T>(bySession: map<SessionKey, seq<Ranked<T>>>, key: SessionKey): seq<Ranked<T>> {
    if key in bySession then bySession[key] else []
  }

  /** The map holds each session met so far under its key. */
  ghost predicate Groups<T>(bySession: map<SessionKey, seq<Ranked<T>>>, order: seq<SessionKey>, s: seq<Ranked<T>>) {
    && order == Keys(s)
    && (forall key :: key in bySession <==> key in order)
    && (forall key :: Listed(bySession, key) == OfSession(s, key))
  }

  lemma GroupNext<T>(bySession: map<SessionKey, seq<Ranked<T>>>, order: seq<SessionKey>, s: seq<Ranked<T>>,
                     r: Ranked<T>,
                     next: map<SessionKey, seq<Ranked<T>>>, nextOrder: seq<SessionKey>)
    requires Groups(bySession, order, s)
    requires next == bySession[r.sessionKey := Listed(bySession, r.sessionKey) + [r]]
    requires nextOrder == if r.sessionKey in bySession then order else order + [r.sessionKey]
    ensures Groups(next, nextOrder, s + [r])
  {
    assert (s + [r])[..|s + [r]| - 1] == s;
    forall key ensures Listed(next, key) == OfSession(s + [r], key) {
      OfSessionPush(s, r, key);
      assert Listed(bySession, key) == OfSession(s, key);
    }
  }

  method GroupBySession<T>(ranked: seq<Ranked<T>>)
    returns (order: seq<SessionKey>, bySession: map<SessionKey, seq<Ranked<T>>>)
    ensures Groups(bySession, order, ranked)
  {
    order, bySession := [], map[];
    ghost var seen: seq<Ranked<T>> := [];
    var n := 0;
    while n < |ranked|
      invariant 0 <= n <= |ranked| && seen == ranked[..n]
      invariant Groups(bySession, order, seen)
    {
      var r := ranked[n];
      ghost var before, orderBefore := bySession, order;
      var list := Listed(bySession, r.sessionKey);
      if r.sessionKey !in bySession {
        order := order + [r.sessionKey];
      }
      bySession := bySession[r.sessionKey := list + [r]];
      GroupNext(before, orderBefore, seen, r, bySession, order);
      seen, n := seen + [r], n + 1;
    }
    assert seen == ranked;
  }

  function ListedRate<T>(bySession: map<SessionKey, seq<Ranked<T>>>): SessionKey -> real {
    key => -HeadScore(Listed(bySession, key))
  }

  lemma ListedIsBest<T>(bySession: map<SessionKey, seq<Ranked<T>>>, order: seq<SessionKey>, ranked: seq<Ranked<T>>)
    requires Groups(bySession, order, ranked)
    ensures SortBy(order, ListedRate(bySession)) == BestFirst(ranked)
  {
    forall key ensures ListedRate(bySession)(key) == Rate(ranked)(key) {
      assert Listed(bySession, key) == OfSession(ranked, key);
    }
    SortCongruent(order, ListedRate(bySession), Rate(ranked));
  }

  method SortedSessions<T>(ranked: seq<Ranked<T>>) returns (sessions: seq<seq<Ranked<T>>>)
    ensures sessions == SessionsOf(ranked, BestFirst(ranked))
  {
    var order, bySession := GroupBySession(ranked);
    ListedIsBest(bySession, order, ranked);
    var best := SortBy(order, ListedRate(bySession));
    sessions := seq(|best|, j requires 0 <= j < |best| => Listed(bySession, best[j]));
    forall j | 0 <= j < |best| ensures sessions[j] == SessionsOf(ranked, best)[j] {
      assert Listed(bySession, best[j]) == OfSession(ranked, best[j]);
    }
  }

  /** The turns, until k are picked or a round brings nothing. */
  method TakeTurns<T>(sessions: seq<seq<Ranked<T>>>, k: nat)
    returns (out: seq<Ranked<T>>, ghost round: nat, ghost i: nat)
    ensures i <= |sessions| && out == Deal(sessions, round, i) && |out| <= k
    ensures |out| < k ==> i == |sessions| && forall j :: 0 <= j < |sessions| ==> |sessions[j]| <= round
  {
    out := [];
    round, i := 0, 0;
    var r := 0;
    while |out| < k
      invariant i <= |sessions| && out == Deal(sessions, round, i) && |out| <= k
      invariant |out| < k ==> round == r && i == 0
      decreases k - |out|
    {
      var progressed := false;
      ghost var start := |out|;
      var s := 0;
      while s < |sessions|
        invariant 0 <= s <= |sessions| && round == r && i == s
        invariant out == Deal(sessions, r, s) && |out| <= k
        invariant if progressed then |out| > start else |out| == start
        invariant !progressed ==> forall j :: 0 <= j < s ==> |sessions[j]| <= r
      {
        if |out| >= k {
          break;
        }
        if r < |sessions[s]| {
          out := out + [sessions[s][r]];
          progressed := true;
        }
        s := s + 1;
        i := s;
      }
      if !progressed {
        break;
      }
      if |out| < k {
        round, i := r + 1, 0;
      }
      r := r + 1;
    }
  }

  /** Each session contributes the front of its own order, and no session falls two behind another while it has more. */
  ghost predicate Fair<T(!new)>(out: seq<Ranked<T>>, ranked: seq<Ranked<T>>) {
    && (forall key :: OfSession(out, key) <= OfSession(ranked, key))
    && (forall a, b :: |OfSession(out, a)| < |OfSession(ranked, a)| ==> |OfSession(out, b)| <= |OfSession(out, a)| + 1)
  }

  /** The best sessions are there with their heads, in order of score; when k runs out first, the others are not. */
  ghost predicate BestSessions<T>(out: seq<Ranked<T>>, ranked: seq<Ranked<T>>, k: int) {
    var keys := BestFirst(ranked);
    && NoRepeat(keys)
    && Ascending(keys, Rate(ranked))
    && (forall j :: 0 <= j < |keys| ==> (OfSession(out, keys[j]) != [] <==> j < k))
    && (forall j :: 0 <= j < |keys| && j < k ==>
        j < |out| && OfSession(ranked, keys[j]) != [] && out[j] == OfSession(ranked, keys[j])[0])
  }

  /**
   * In scores: no session left out has a better head than one that was taken, and the heads come in
   * falling order before anything else.
   */
  ghost predicate BetterHeadsFirst<T(!new)>(out: seq<Ranked<T>>, ranked: seq<Ranked<T>>) {
    && (forall a, b ::
          OfSession(out, a) != [] && OfSession(out, b) == [] && OfSession(ranked, b) != [] ==>
            OfSession(ranked, a) != [] && OfSession(ranked, a)[0].score >= OfSession(ranked, b)[0].score)
    && (forall i, j :: 0 <= i < j < |out| && j < |Keys(ranked)| ==> out[i].score >= out[j].score)
  }

  lemma BestMeansBetter<T(!new)>(out: seq<Ranked<T>>, ranked: seq<Ranked<T>>)
    requires Fair(out, ranked) && BestSessions(out, ranked, |out|)
    ensures BetterHeadsFirst(out, ranked)
  {
    forall a, b | OfSession(out, a) != [] && OfSession(out, b) == [] && OfSession(ranked, b) != []
      ensures OfSession(ranked, a) != [] && OfSession(ranked, a)[0].score >= OfSession(ranked, b)[0].score
    {
      assert OfSession(out, a) <= OfSession(ranked, a);
      TakenIsBetter(out, ranked, a, b);
    }
    HeadsFall(out, ranked);
  }

  lemma TakenIsBetter<T>(out: seq<Ranked<T>>, ranked: seq<Ranked<T>>, a: SessionKey, b: SessionKey)
    requires BestSessions(out, ranked, |out|) && OfSession(ranked, a) != [] && OfSession(ranked, b) != []
    requires OfSession(out, a) != [] && OfSession(out, b) == []
    ensures OfSession(ranked, a)[0].score >= OfSession(ranked, b)[0].score
  {
    var keys := BestFirst(ranked);
    BestFirstKeys(ranked);
    var i :| 0 <= i < |keys| && keys[i] == a;
    var j :| 0 <= j < |keys| && keys[j] == b;
    assert Rate(ranked)(keys[i]) <= Rate(ranked)(keys[j]);
  }

  lemma HeadsFall<T>(out: seq<Ranked<T>>, ranked: seq<Ranked<T>>)
    requires BestSessions(out, ranked, |out|)
    ensures forall i, j :: 0 <= i < j < |out| && j < |Keys(ranked)| ==> out[i].score >= out[j].score
  {
    var keys := BestFirst(ranked);
    assert |keys| == |Keys(ranked)|;
    forall i, j | 0 <= i < j < |out| && j < |Keys(ranked)| ensures out[i].score >= out[j].score {
      assert Rate(ranked)(keys[i]) <= Rate(ranked)(keys[j]);
    }
  }

  lemma BestFirstKeys<T>(ranked: seq<Ranked<T>>)
    ensures var keys := BestFirst(ranked);
            && NoRepeat(keys) && KeysIn(ranked, keys)
            && (forall key :: key in keys <==> OfSession(ranked, key) != [])
            && AreSessions(SessionsOf(ranked, keys), keys)
            && Ascending(keys, Rate(ranked))
  {
    var keys, rate := BestFirst(ranked), Rate(ranked);
    KeysOfAll(ranked);
    SortNoRepeat(Keys(ranked), rate);
    SortAscending(Keys(ranked), rate);
    forall j | 0 <= j < |keys| ensures forall m :: 0 <= m < |OfSession(ranked, keys[j])| ==>
        OfSession(ranked, keys[j])[m].sessionKey == keys[j] {
      SessionsHaveOneKey(ranked, keys[j]);
    }
  }

  lemma Exhausted<T>(session: seq<Ranked<T>>, turns: nat)
    requires |session| <= turns
    ensures session[..Min(|session|, turns)] == session
  {}

  /** When every session is exhausted, everything has been dealt. */
  lemma TurnsFill<T>(ranked: seq<Ranked<T>>, keys: seq<SessionKey>, sessions: seq<seq<Ranked<T>>>, round: nat,
                     out: seq<Ranked<T>>)
    requires keys == BestFirst(ranked) && sessions == SessionsOf(ranked, keys)
    requires out == Deal(sessions, round, |sessions|) && forall j :: 0 <= j < |sessions| ==> |sessions[j]| <= round
    ensures |out| == |ranked|
  {
    BestFirstKeys(ranked);
    AllDealt(ranked, keys, sessions, round, out);
    SumEqual(out, ranked, keys);
    SumIsLength(out, keys);
    SumIsLength(ranked, keys);
  }

  lemma AllDealt<T>(ranked: seq<Ranked<T>>, keys: seq<SessionKey>, sessions: seq<seq<Ranked<T>>>, round: nat,
                    out: seq<Ranked<T>>)
    requires sessions == SessionsOf(ranked, keys) && AreSessions(sessions, keys)
    requires out == Deal(sessions, round, |sessions|) && forall j :: 0 <= j < |sessions| ==> |sessions[j]| <= round
    ensures KeysIn(out, keys) && forall key :: key in keys ==> OfSession(out, key) == OfSession(ranked, key)
  {
    DealtFront(sessions, keys, round, |sessions|);
    forall key | key in keys ensures OfSession(out, key) == OfSession(ranked, key) {
      var j :| 0 <= j < |keys| && keys[j] == key;
      Exhausted(sessions[j], round + 1);
    }
  }

  lemma DealIsFair<T(!new)>(ranked: seq<Ranked<T>>, keys: seq<SessionKey>, sessions: seq<seq<Ranked<T>>>,
                            round: nat, i: nat, out: seq<Ranked<T>>)
    requires keys == BestFirst(ranked) && sessions == SessionsOf(ranked, keys)
    requires i <= |sessions| && out == Deal(sessions, round, i)
    ensures Fair(out, ranked)
  {
    forall key
      ensures OfSession(out, key) <= OfSession(ranked, key)
      ensures |OfSession(out, key)| <= round + 1
      ensures |OfSession(out, key)| < |OfSession(ranked, key)| ==> |OfSession(out, key)| >= round
    {
      DealtOfKey(ranked, keys, sessions, round, i, out, key);
    }
  }

  /** After that many rounds a session has had its turns, or is used up. */
  lemma DealtOfKey<T>(ranked: seq<Ranked<T>>, keys: seq<SessionKey>, sessions: seq<seq<Ranked<T>>>,
                      round: nat, i: nat, out: seq<Ranked<T>>, key: SessionKey)
    requires keys == BestFirst(ranked) && sessions == SessionsOf(ranked, keys)
    requires i <= |sessions| && out == Deal(sessions, round, i)
    ensures OfSession(out, key) <= OfSession(ranked, key)
    ensures |OfSession(out, key)| <= round + 1
    ensures |OfSession(out, key)| < |OfSession(ranked, key)| ==> |OfSession(out, key)| >= round
  {
    BestFirstKeys(ranked);
    DealtFront(sessions, keys, round, i);
    if key in keys {
      var j :| 0 <= j < |keys| && keys[j] == key;
      assert sessions[j] == OfSession(ranked, key);
      FrontOf(sessions[j], Turns(round, i, j));
    } else {
      NotDealt(out, keys, key);
    }
  }

  lemma FrontOf<T>(session: seq<Ranked<T>>, turns: nat)
    ensures var front := session[..Min(|session|, turns)];
            front <= session && |front| <= turns && (|front| < |session| ==> |front| == turns)
  {}

  lemma {:induction false} NotDealt<T>(out: seq<Ranked<T>>, keys: seq<SessionKey>, key: SessionKey)
    requires KeysIn(out, keys) && key !in keys
    ensures OfSession(out, key) == []
    decreases |out|
  {
    if |out| > 0 {
      NotDealt(out[..|out| - 1], keys, key);
    }
  }

  lemma DealTakesBest<T>(ranked: seq<Ranked<T>>, keys: seq<SessionKey>, sessions: seq<seq<Ranked<T>>>,
                         round: nat, i: nat, out: seq<Ranked<T>>)
    requires keys == BestFirst(ranked) && sessions == SessionsOf(ranked, keys)
    requires i <= |sessions| && out == Deal(sessions, round, i)
    ensures BestSessions(out, ranked, |out|)
  {
    BestFirstKeys(ranked);
    DealtFront(sessions, keys, round, i);
    forall j | 0 <= j < |sessions| ensures sessions[j] == OfSession(ranked, keys[j]) && |sessions[j]| > 0 {
      assert keys[j] in keys;
    }
    HeadsFirst(sessions, round, i);
    forall j | 0 <= j < |keys| ensures OfSession(out, keys[j]) != [] <==> j < |out| {
      SomeDealt(sessions[j], Turns(round, i, j));
    }
  }

  lemma SomeDealt<T>(session: seq<Ranked<T>>, turns: nat)
    requires |session| > 0
    ensures session[..Min(|session|, turns)] != [] <==> turns > 0
  {}

  /**
   * Exactly min(k, n) elements: all of them in their order when they fit, otherwise k dealt fairly
   * by turns.
   */
  method DiversifyTop<T(!new)>(ranked: seq<Ranked<T>>, k: int) returns (out: seq<Ranked<T>>)
    ensures |out| == if k <= 0 then 0 else Min(k, |ranked|)
    ensures 0 < k && |ranked| <= k ==> out == ranked
    ensures 0 < k < |ranked| ==> exists round: nat, i: nat ::
              i <= |BestFirst(ranked)| && out == Deal(SessionsOf(ranked, BestFirst(ranked)), round, i)
    ensures 0 < k ==> Fair(out, ranked)
    ensures 0 < k < |ranked| ==> BestSessions(out, ranked, k) && BetterHeadsFirst(out, ranked)
  {
    if k <= 0 {
      return [];
    }
    if |ranked| <= k {
      return ranked;
    }
    var sessions := SortedSessions(ranked);
    ghost var round, i;
    out, round, i := TakeTurns(sessions, k);
    ghost var keys := BestFirst(ranked);
    if |out| < k {
      TurnsFill(ranked, keys, sessions, round, out);
    }
    DealIsFair(ranked, keys, sessions, round, i, out);
    DealTakesBest(ranked, keys, sessions, round, i, out);
    BestMeansBetter(out, ranked);
  }
}
