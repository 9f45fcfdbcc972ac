/** What a generated session says and when, and that the gaps a router observes are the pauses drawn. */
module GeneratedTurns {
  import opened Basics
  import opened Lru
  import opened Workload
  import opened WorkloadLaws
  import opened LearningHistory
  import opened RetentionLaws
  import opened ReliabilityRuns
  import Blocks

  /** The words of all messages, one after the other. */
  ghost function Transcript(messages: seq<Message>): seq<string> {
    if messages == [] then [] else Transcript(messages[..|messages| - 1]) + messages[|messages| - 1].content
  }

  lemma {:induction false} TranscriptJoins(a: seq<Message>, b: seq<Message>)
    ensures Transcript(a + b) == Transcript(a) + Transcript(b)
  {
    hide Transcript;
    NoTranscript();
    if b == [] {
      assert a + b == a;
    } else {
      var front, last := b[..|b| - 1], b[|b| - 1];
      TranscriptJoins(a, front);
      TranscriptSnoc(a + front, last);
      TranscriptSnoc(front, last);
      assert a + front + [last] == a + b && front + [last] == b;
    }
  }

  lemma NoTranscript()
    ensures Transcript([]) == []
  {
  }

  lemma {:induction false} TranscriptSnoc(a: seq<Message>, m: Message)
    ensures Transcript(a + [m]) == Transcript(a) + m.content
  {
    assert (a + [m])[..|a|] == a;
  }

  lemma {:induction false} WordsAreTranscript(setup: Setup, l: Launch, i: nat)
    requires i <= |l.draws|
    ensures Words(setup, l, i) == Transcript(Messages(setup, l, i))
  {
    if i == 0 {
      var first, second := Message("system", setup.system, None), Message("user", l.opening, None);
      TranscriptJoins([first], [second]);
      assert Messages(setup, l, 0) == [first] + [second];
      TranscriptOfOne(first);
      TranscriptOfOne(second);
    } else {
      WordsAreTranscript(setup, l, i - 1);
      TranscriptJoins(Messages(setup, l, i - 1), NewMessages(l.tool, l.draws[i - 1]));
      RoundTranscript(l.tool, l.draws[i - 1]);
    }
  }

  lemma {:induction false} TranscriptOfOne(m: Message)
    ensures Transcript([m]) == m.content
  {
    TranscriptSnoc([], m);
    NoTranscript();
    hide Transcript;
    assert [] + [m] == [m];
  }

  lemma {:induction false} RoundTranscript(tool: Option<Tool>, d: Draw)
    ensures Transcript(NewMessages(tool, d)) == Segment(d)
  {
    var ms := NewMessages(tool, d);
    assert ms == ([ms[0]] + [ms[1]]) + [ms[2]];
    TranscriptJoins([ms[0]] + [ms[1]], [ms[2]]);
    TranscriptJoins([ms[0]], [ms[1]]);
    TranscriptOfOne(ms[0]);
    TranscriptOfOne(ms[1]);
    TranscriptOfOne(ms[2]);
  }

  /** Round `k` of a conversation stands after the two opening messages and `k` rounds of three. */
  ghost predicate HasRound(messages: seq<Message>, k: nat, tool: Option<Tool>, d: Draw) {
    var call := if tool.Some? then Some(tool.value.name) else None;
    && 4 + 3 * k < |messages|
    && messages[2 + 3 * k] == Message("assistant", d.assistant, call)
    && messages[3 + 3 * k] == Message("tool", d.result, None)
    && messages[4 + 3 * k] == Message("user", d.user, None)
  }

  lemma {:induction false} MessagesInFull(setup: Setup, l: Launch, i: nat)
    requires i <= |l.draws|
    ensures var messages := Messages(setup, l, i);
            && |messages| == 2 + 3 * i
            && messages[0] == Message("system", setup.system, None)
            && messages[1] == Message("user", l.opening, None)
            && forall k :: 0 <= k < i ==> HasRound(messages, k, l.tool, l.draws[k])
  {
    if i > 0 {
      MessagesInFull(setup, l, i - 1);
      var before, messages := Messages(setup, l, i - 1), Messages(setup, l, i);
      forall k | 0 <= k < i ensures HasRound(messages, k, l.tool, l.draws[k]) {
        assert k < i - 1 ==> HasRound(before, k, l.tool, l.draws[k]);
      }
    }
  }

  /**
   A turn in full: the prompt is the transcript of its messages, which are the opening pair and one
   assistant, tool and user message per earlier turn; the reply is at least one token long.
   */
  lemma {:induction false} TurnInFull(ids: map<string, int>, setup: Setup, sid: nat, l: Launch, start: real, i: nat)
    requires i <= |l.draws| && setup.size > 0
    ensures var t, gen := TurnAt(ids, setup, sid, l, start, i), if i == 0 then l.gen else l.draws[i - 1].gen;
            && t.session == sid && t.turn == i
            && t.tokens == Encode(ids, Transcript(t.messages))
            && |t.messages| == 2 + 3 * i
            && t.messages[0] == Message("system", setup.system, None)
            && t.messages[1] == Message("user", l.opening, None)
            && (forall k :: 0 <= k < i ==> HasRound(t.messages, k, l.tool, l.draws[k]))
            && t.genTokens == (if gen < 1 then 1 else gen)
            && t.toolName == (if i == 0 || l.tool.None? then None else Some(l.tool.value.name))
  {
    WordsAreTranscript(setup, l, i);
    MessagesInFull(setup, l, i);
    hide Words, Messages, Transcript, HasRound, Encode, Blocks.Chain, ArrivalOf;
  }

  /** Seconds between a turn and the next: fixed without a tool, short after a failed call, else the tool's latency. */
  ghost function SecondsBetween(setup: Setup, l: Launch, d: Draw): real {
    if l.tool.None? then setup.thinkTime + setup.nominalTurn
    else if d.failed then 0.2
    else setup.thinkTime + l.tool.value.successLatency
  }

  lemma {:induction false} PausesInFull(ids: map<string, int>, setup: Setup, sid: nat, l: Launch, start: real, i: nat)
    requires i < |l.draws| && setup.size > 0
    ensures TurnAt(ids, setup, sid, l, start, 0).arrival == start
    ensures TurnAt(ids, setup, sid, l, start, i + 1).arrival - TurnAt(ids, setup, sid, l, start, i).arrival ==
            SecondsBetween(setup, l, l.draws[i])
  {
    hide Words, Messages, Encode, Blocks.Chain;
  }

  /** Sessions start one drawn gap after the other. */
  lemma {:induction false} StartsInFull(ids: map<string, int>, setup: Setup, launches: seq<Launch>, sid: nat)
    requires setup.size > 0 && sid < |launches|
    ensures var first := TurnAt(ids, setup, sid, launches[sid], StartOf(launches, sid), 0).arrival;
            first - launches[sid].gap ==
            if sid == 0 then 0.0
            else TurnAt(ids, setup, sid - 1, launches[sid - 1], StartOf(launches, sid - 1), 0).arrival
  {
    hide Words, Messages, Encode, Blocks.Chain;
  }

  // ------------------------------------------------------------------ no repetitions

  lemma {:induction false} ElemsAreFew<T>(s: seq<T>)
    ensures |Elems(s)| <= |s|
  {
    if s != [] {
      ElemsAreFew(s[..|s| - 1]);
      ElemsSnoc(s);
    }
  }

  /** A rearrangement of distinct elements is distinct. */
  lemma {:induction false} RearrangedIsDistinct<T>(a: seq<T>, b: seq<T>)
    requires Distinct(a) && multiset(a) == multiset(b)
    ensures Distinct(b)
  {
    DistinctCardinality(a);
    assert |a| == |multiset(a)| == |multiset(b)| == |b|;
    forall x ensures x in Elems(a) <==> x in Elems(b) {
      assert x in multiset(a) <==> x in multiset(b);
    }
    assert Elems(a) == Elems(b);
    forall i, j | 0 <= i < j < |b| ensures b[i] != b[j] {
      if b[i] == b[j] {
        Repetition(b, i, j);
      }
    }
  }

  lemma {:induction false} Repetition<T>(b: seq<T>, i: nat, j: nat)
    requires i < j < |b| && b[i] == b[j]
    ensures |Elems(b)| < |b|
  {
    var rest := b[..j] + b[j + 1..];
    ElemsAreFew(rest);
    forall x | x in b ensures x in rest {
      var k :| 0 <= k < |b| && b[k] == x;
      assert if k < j then rest[k] == x else if k > j then rest[k - 1] == x else rest[i] == x;
    }
    assert Elems(rest) == Elems(b);
  }

  lemma {:induction false} SessionIsDistinct(ids: map<string, int>, setup: Setup, sid: nat, l: Launch, start: real,
                                             n: nat)
    requires n <= |l.draws| + 1 && setup.size > 0
    ensures Distinct(SessionTurns(ids, setup, sid, l, start, n))
  {
    hide Words, Messages, ArrivalOf, Encode, Blocks.Chain;
    var turns := SessionTurns(ids, setup, sid, l, start, n);
    assert forall i :: 0 <= i < n ==> turns[i].turn == i;
  }

  lemma {:induction false} AllAreDistinct(ids: map<string, int>, setup: Setup, launches: seq<Launch>, n: nat)
    requires n <= |launches| && setup.size > 0
    ensures Distinct(AllTurns(ids, setup, launches, n))
    decreases n
  {
    hide TurnAt, StartOf, SessionTurns;
    if n > 0 {
      var l := launches[n - 1];
      var a, b := AllTurns(ids, setup, launches, n - 1),
          SessionTurns(ids, setup, n - 1, l, StartOf(launches, n - 1), |l.draws| + 1);
      AllAreDistinct(ids, setup, launches, n - 1);
      SessionIsDistinct(ids, setup, n - 1, l, StartOf(launches, n - 1), |l.draws| + 1);
      forall i, j | 0 <= i < |a| && 0 <= j < |b| ensures a[i] != b[j] {
        AllAreTurns(ids, setup, launches, n - 1, a[i]);
        SessionHas(ids, setup, n - 1, l, StartOf(launches, n - 1), b[j]);
        assert a[i] in a && b[j] in b;
      }
    }
  }

  lemma {:induction false} StreamIsDistinct(ids: map<string, int>, setup: Setup, launches: seq<Launch>)
    requires setup.size > 0
    ensures Distinct(Stream(ids, setup, launches))
  {
    hide AllTurns, Sorted;
    var all := AllTurns(ids, setup, launches, |launches|);
    SortedFacts(all);
    AllAreDistinct(ids, setup, launches, |launches|);
    RearrangedIsDistinct(all, Sorted(all));
  }

  /** The stream by arrival, then session, then turn, and no turn twice. */
  lemma {:induction false} StreamOrder(ids: map<string, int>, setup: Setup, launches: seq<Launch>, i: nat, j: nat)
    requires setup.size > 0 && i < j < |Stream(ids, setup, launches)|
    ensures var a, b := Stream(ids, setup, launches)[i], Stream(ids, setup, launches)[j];
            || a.arrival < b.arrival
            || (a.arrival == b.arrival && a.session < b.session)
            || (a.arrival == b.arrival && a.session == b.session && a.turn < b.turn)
  {
    hide Stream, TurnAt, StartOf;
    var a, b := Stream(ids, setup, launches)[i], Stream(ids, setup, launches)[j];
    StreamHolds(ids, setup, launches, a);
    StreamHolds(ids, setup, launches, b);
    StreamIsDistinct(ids, setup, launches);
    assert NotAfter(a, b);
  }

  // ------------------------------------------------------------------ gaps observed

  /** Where the turn before stream position `k` is: nothing of its session comes in between. */
  lemma {:induction false} TurnBefore(ids: map<string, int>, setup: Setup, launches: seq<Launch>, k: nat)
    returns (m: nat)
    requires Workload.Sane(setup, launches) && k < |Stream(ids, setup, launches)|
    requires Stream(ids, setup, launches)[k].turn > 0
    ensures var s := Stream(ids, setup, launches);
            && IsTurn(ids, setup, launches, s[k])
            && m < k && s[m].session == s[k].session && s[m].turn == s[k].turn - 1
            && IsTurn(ids, setup, launches, s[m])
            && forall j :: m < j < k ==> s[j].session != s[k].session
  {
    hide Stream, TurnAt, StartOf, Precedes;
    var s := Stream(ids, setup, launches);
    StreamHolds(ids, setup, launches, s[k]);
    var sid, i := s[k].session, s[k].turn;
    var before := TurnAt(ids, setup, sid, launches[sid], StartOf(launches, sid), i - 1);
    TurnNames(ids, setup, sid, launches[sid], StartOf(launches, sid), i - 1);
    StreamHolds(ids, setup, launches, before);
    m :| 0 <= m < |s| && s[m] == before;
    StreamIsDistinct(ids, setup, launches);
    if m > k {
      ConversationsGrow(ids, setup, launches, k, m);
    }
    forall j | m < j < k ensures s[j].session != sid {
      if s[j].session == sid {
        ConversationsGrow(ids, setup, launches, m, j);
        ConversationsGrow(ids, setup, launches, j, k);
        StreamHolds(ids, setup, launches, s[j]);
      }
    }
  }

  lemma TurnNames(ids: map<string, int>, setup: Setup, sid: nat, l: Launch, start: real, i: nat)
    requires i <= |l.draws| && setup.size > 0
    ensures TurnAt(ids, setup, sid, l, start, i).session == sid && TurnAt(ids, setup, sid, l, start, i).turn == i
  {
  }

  lemma {:induction false} LastTimeIs<K>(s: seq<Sighting<K>>, m: nat, k: nat, key: K)
    requires m < k <= |s| && s[m].key == Some(key) && forall j :: m < j < k ==> s[j].key != Some(key)
    ensures LastTime(s, k, key) == Some(s[m].now) && key in Keys(s, k)
    decreases k
  {
    if m < k - 1 {
      LastTimeIs(s, m, k - 1, key);
    }
  }

  lemma {:induction false} FewKeys(s: seq<Sighting<int>>, k: nat, n: nat)
    requires k <= |s| && forall j :: 0 <= j < |s| ==> s[j].key.Some? && 0 <= s[j].key.value < n
    ensures forall key :: key in Keys(s, k) ==> 0 <= key < n
  {
    if k > 0 {
      FewKeys(s, k - 1, n);
    }
  }

  /** Among at most `cap` conversations every one that was seen is recent. */
  lemma {:induction false} FewAreRecent(keys: seq<int>, n: nat, cap: nat, key: int)
    requires n <= cap && key in keys && forall x :: x in keys ==> 0 <= x < n
    ensures Recent(keys, cap, key)
  {
    hide Recency, Below, Distinct;
    RecencySize(keys);
    BelowFacts(n);
    forall x | x in Elems(keys) ensures x in Below(n) {
      assert x in keys;
    }
    SubsetCardinality(Elems(keys), Below(n));
    assert LastN(Recency(keys), cap) == Recency(keys);
    assert key in Elems(Recency(keys));
  }

  ghost function Below(n: nat): set<int> {
    if n == 0 then {} else Below(n - 1) + {n - 1}
  }

  lemma {:induction false} BelowFacts(n: nat)
    ensures |Below(n)| == n && forall x :: x in Below(n) <==> 0 <= x < n
  {
    if n > 0 {
      BelowFacts(n - 1);
    }
  }

  /** The gap observed at a turn that is not the first one is the time since the turn before. */
  lemma {:induction false} GapSinceTurnBefore(s: seq<TurnRequest>, m: nat, k: nat, n: nat)
    requires m < k < |s| && s[m].session == s[k].session && n <= 8192
    requires forall j :: m < j < k ==> s[j].session != s[k].session
    requires forall j :: 0 <= j < |s| ==> s[j].session < n
    ensures ExactGap(Sightings(Turns(Replayed(s))), 8192, k) ==
            if s[k].toolName.None? then None else Some(s[k].arrival - s[m].arrival)
  {
    hide LastTime, Recent, Keys;
    var seen := Sightings(Turns(Replayed(s)));
    assert forall j :: 0 <= j < |s| ==> seen[j] == Sighting(Some(s[j].session), s[j].toolName.Some?, s[j].arrival);
    LastTimeIs(seen, m, k, s[k].session);
    FewKeys(seen, k, n);
    FewAreRecent(Keys(seen, k), n, 8192, s[k].session);
  }

  /**
   From the draws to the router's table: replaying a generated stream of no more sessions than the
   last-seen table holds, the gap observed at a turn is the pause that was drawn before it, if
   the session has a tool, and nothing at a first turn or without one.
   */
  lemma {:induction false} GapIsPause(ids: map<string, int>, setup: Setup, launches: seq<Launch>, k: nat)
    requires Workload.Sane(setup, launches) && |launches| <= 8192 && k < |Stream(ids, setup, launches)|
    ensures var r := Stream(ids, setup, launches)[k];
            && r.session < |launches| && r.turn <= |launches[r.session].draws|
            && ExactGap(Sightings(Turns(Replayed(Stream(ids, setup, launches)))), 8192, k) ==
               (if r.turn == 0 || launches[r.session].tool.None? then None
                else Some(SecondsBetween(setup, launches[r.session], launches[r.session].draws[r.turn - 1])))
  {
    hide Stream, TurnAt, StartOf, LastTime, Recent, Keys, SecondsBetween, Messages, Transcript, HasRound;
    var s := Stream(ids, setup, launches);
    var r := s[k];
    StreamHolds(ids, setup, launches, r);
    var l, start := launches[r.session], StartOf(launches, r.session);
    ToolOfTurn(ids, setup, r.session, l, start, r.turn);
    if r.turn > 0 {
      var m := TurnBefore(ids, setup, launches, k);
      PausesInFull(ids, setup, r.session, l, start, r.turn - 1);
      forall j | 0 <= j < |s| ensures s[j].session < |launches| {
        StreamHolds(ids, setup, launches, s[j]);
      }
      GapSinceTurnBefore(s, m, k, |launches|);
    }
  }

  lemma {:induction false} ToolOfTurn(ids: map<string, int>, setup: Setup, sid: nat, l: Launch, start: real, i: nat)
    requires i <= |l.draws| && setup.size > 0
    ensures TurnAt(ids, setup, sid, l, start, i).toolName ==
            if i == 0 || l.tool.None? then None else Some(l.tool.value.name)
  {
    hide Words, Messages, Encode, Blocks.Chain, ArrivalOf;
  }
}
