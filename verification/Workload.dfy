/**
 The session generator: interned tokens, and tool-calling sessions whose prompts and
 message lists grow turn by turn.  What the generator draws is an arbitrary input.
 */
module Workload {
  import opened Basics
  import Blocks

  // ----------------------------------------------------------------- vocabulary

  /** Distinct words have distinct ids. */
  ghost predicate Interned(ids: map<string, int>) {
    forall v, w :: v in ids && w in ids && ids[v] == ids[w] ==> v == w
  }

  ghost predicate Covers(ids: map<string, int>, words: seq<string>) {
    forall i :: 0 <= i < |words| ==> words[i] in ids
  }

  ghost predicate Extends(ids: map<string, int>, ids': map<string, int>) {
    forall w :: w in ids ==> w in ids' && ids'[w] == ids[w]
  }

  /** Distinct ids below the number of words. */
  ghost predicate Dense(ids: map<string, int>) {
    Interned(ids) && forall w :: w in ids ==> 0 <= ids[w] < |ids|
  }

  /** The tokens of a text, -1 for a word without an id. */
  function Encode(ids: map<string, int>, words: seq<string>): (tokens: seq<int>)
    ensures |tokens| == |words|
    ensures forall i :: 0 <= i < |words| ==> tokens[i] == if words[i] in ids then ids[words[i]] else -1
  {
    seq(|words|, i requires 0 <= i < |words| => if words[i] in ids then ids[words[i]] else -1)
  }

  lemma {:induction false} EncodeJoins(ids: map<string, int>, a: seq<string>, b: seq<string>)
    ensures Encode(ids, a + b) == Encode(ids, a) + Encode(ids, b)
    ensures Covers(ids, a + b) <==> Covers(ids, a) && Covers(ids, b)
  {
    assert Covers(ids, a + b) ==> Covers(ids, a) && Covers(ids, b) by {
      assert forall i :: 0 <= i < |a| ==> (a + b)[i] == a[i];
      assert forall i :: 0 <= i < |b| ==> (a + b)[|a| + i] == b[i];
    }
  }

  /** Words learned later do not change the tokens of a known text. */
  lemma EncodeIsStable(ids: map<string, int>, ids': map<string, int>, words: seq<string>)
    requires Extends(ids, ids') && Covers(ids, words)
    ensures Covers(ids', words) && Encode(ids', words) == Encode(ids, words)
  {
  }

  lemma ExtendsOn(a: map<string, int>, b: map<string, int>, c: map<string, int>)
    requires Extends(a, b) && Extends(b, c)
    ensures Extends(a, c)
  {
  }

  lemma FreshWord(ids: map<string, int>, word: string)
    requires Dense(ids) && word !in ids
    ensures Dense(ids[word := |ids|]) && Extends(ids, ids[word := |ids|])
  {
  }

  /** The word-to-id table shared by a whole run. */
  class Vocabulary {
    var ids: map<string, int>

    ghost predicate Sound()
      reads this
    {
      Dense(ids)
    }

    constructor ()
      ensures Sound() && ids == map[]
    {
      ids := map[];
    }

    /** New words get the next free ids; known words keep theirs. */
    method Tokenize(words: seq<string>) returns (tokens: seq<int>)
      requires Sound()
      modifies this
      ensures Sound() && Extends(old(ids), ids)
      ensures Covers(ids, words) && tokens == Encode(ids, words)
    {
      tokens := [];
      for i := 0 to |words|
        invariant Sound() && Extends(old(ids), ids)
        invariant Covers(ids, words[..i]) && tokens == Encode(ids, words[..i])
      {
        var word := words[i];
        ghost var before := ids;
        if word !in ids {
          FreshWord(ids, word);
          ids := ids[word := |ids|];
        }
        WordAdded(old(ids), before, ids, words[..i], word);
        hide Dense, Extends, Covers, Encode;
        tokens := tokens + [ids[word]];
        assert words[..i + 1] == words[..i] + [word];
      }
      assert words[..|words|] == words;
    }
  }

  lemma {:induction false} WordAdded(first: map<string, int>, ids: map<string, int>, ids': map<string, int>,
                                     words: seq<string>, word: string)
    requires Extends(first, ids) && (ids' == ids || Extends(ids, ids')) && word in ids' && Covers(ids, words)
    ensures Extends(first, ids') && Covers(ids', words + [word])
    ensures Encode(ids', words + [word]) == Encode(ids, words) + [ids'[word]]
  {
    EncodeIsStable(ids, ids', words);
    EncodeJoins(ids', words, [word]);
    assert Encode(ids', [word]) == [ids'[word]];
    hide Encode;
  }

  /** Token prefixes are word prefixes: interning neither merges nor splits anything. */
  lemma {:induction false} EncodingKeepsCommonPrefix(ids: map<string, int>, a: seq<string>, b: seq<string>)
    requires Interned(ids) && Covers(ids, a) && Covers(ids, b)
    ensures Blocks.Common(Encode(ids, a), Encode(ids, b)) == Blocks.Common(a, b)
  {
    if a != [] && b != [] && a[0] == b[0] {
      EncodingKeepsCommonPrefix(ids, a[1..], b[1..]);
      assert Encode(ids, a)[1..] == Encode(ids, a[1..]);
      assert Encode(ids, b)[1..] == Encode(ids, b[1..]);
    }
  }

  /** Two texts share exactly as many leading block hashes as whole blocks of common words. */
  lemma {:induction false} SharedWordsAreSharedBlocks(h: Blocks.Hash, ids: map<string, int>, a: seq<string>,
                                                      b: seq<string>, size: nat)
    requires Blocks.Injective(h) && size > 0 && Interned(ids) && Covers(ids, a) && Covers(ids, b)
    ensures Blocks.SharedHashes(h, Encode(ids, a), Encode(ids, b), size) == Blocks.Common(a, b) / size
  {
    hide Blocks.SharedHashes, Blocks.Common, Blocks.Injective;
    EncodingKeepsCommonPrefix(ids, a, b);
    Blocks.SharedPrefixIsExact(h, Encode(ids, a), Encode(ids, b), size);
  }

  // -------------------------------------------------------------------- sessions

  datatype Tool = Tool(name: string, successLatency: real)

  const RETRY_GAP := 0.2

  /** What is drawn for a later turn: the texts appended, whether the call failed, the reply length. */
  datatype Draw = Draw(assistant: seq<string>, failed: bool, result: seq<string>, user: seq<string>, gen: int)

  /** What is drawn for a session: the pause since the last one, its first question, its tool, its later turns. */
  datatype Launch = Launch(gap: real, opening: seq<string>, tool: Option<Tool>, gen: int, draws: seq<Draw>)

  /** What all sessions of a run have in common. */
  datatype Setup = Setup(h: Blocks.Hash, size: nat, system: seq<string>, thinkTime: real, nominalTurn: real)

  /** `call` is the tool an assistant message names. */
  datatype Message = Message(role: string, content: seq<string>, call: Option<string>)

  datatype TurnRequest = TurnRequest(session: nat, turn: nat, arrival: real, tokens: seq<int>, hashes: seq<int>,
                                     genTokens: nat, messages: seq<Message>, toolName: Option<string>)

  ghost predicate Sane(setup: Setup, launches: seq<Launch>) {
    && setup.size > 0 && setup.thinkTime >= 0.0 && setup.nominalTurn >= 0.0
    && forall i :: 0 <= i < |launches| ==>
         launches[i].gap >= 0.0 && (launches[i].tool.Some? ==> launches[i].tool.value.successLatency >= 0.0)
  }

  /** The time between a turn and the one before it. */
  function Pause(setup: Setup, tool: Option<Tool>, d: Draw): real {
    match tool
    case None => setup.thinkTime + setup.nominalTurn
    case Some(t) => if d.failed then RETRY_GAP else setup.thinkTime + t.successLatency
  }

  function Segment(d: Draw): seq<string> {
    d.assistant + d.result + d.user
  }

  function NameOf(tool: Option<Tool>): Option<string> {
    match tool
    case None => None
    case Some(t) => Some(t.name)
  }

  function NewMessages(tool: Option<Tool>, d: Draw): seq<Message> {
    [Message("assistant", d.assistant, NameOf(tool)), Message("tool", d.result, None), Message("user", d.user, None)]
  }

  /** All words of the prompt at turn `i`. */
  function Words(setup: Setup, l: Launch, i: nat): seq<string>
    requires i <= |l.draws|
    decreases i
  {
    if i == 0 then setup.system + l.opening else Words(setup, l, i - 1) + Segment(l.draws[i - 1])
  }

  function Messages(setup: Setup, l: Launch, i: nat): seq<Message>
    requires i <= |l.draws|
    decreases i
  {
    if i == 0 then [Message("system", setup.system, None), Message("user", l.opening, None)]
    else Messages(setup, l, i - 1) + NewMessages(l.tool, l.draws[i - 1])
  }

  function ArrivalOf(setup: Setup, l: Launch, start: real, i: nat): real
    requires i <= |l.draws|
    decreases i
  {
    if i == 0 then start else ArrivalOf(setup, l, start, i - 1) + Pause(setup, l.tool, l.draws[i - 1])
  }

  function GenTokens(gen: int): nat {
    Max(1, gen)
  }

  /** Turn `i` of session `sid`, as the vocabulary and the draws determine it. */
  function TurnAt(ids: map<string, int>, setup: Setup, sid: nat, l: Launch, start: real, i: nat): TurnRequest
    requires i <= |l.draws| && setup.size > 0
  {
    var tokens := Encode(ids, Words(setup, l, i));
    TurnRequest(sid, i, ArrivalOf(setup, l, start, i), tokens,
                Blocks.Chain(setup.h, tokens, setup.size, |tokens| / setup.size),
                GenTokens(if i == 0 then l.gen else l.draws[i - 1].gen), Messages(setup, l, i),
                if i == 0 then None else NameOf(l.tool))
  }

  /** The first `n` turns of a session. */
  function SessionTurns(ids: map<string, int>, setup: Setup, sid: nat, l: Launch, start: real, n: nat)
    : (turns: seq<TurnRequest>)
    requires n <= |l.draws| + 1 && setup.size > 0
    ensures |turns| == n
    ensures forall i :: 0 <= i < n ==> turns[i] == TurnAt(ids, setup, sid, l, start, i)
  {
    seq(n, i requires 0 <= i < n => TurnAt(ids, setup, sid, l, start, i))
  }

  ghost predicate CoversTurns(ids: map<string, int>, setup: Setup, l: Launch, n: nat)
    requires n <= |l.draws| + 1
  {
    forall i :: 0 <= i < n ==> Covers(ids, Words(setup, l, i))
  }

  lemma {:induction false} TurnsAreStable(ids: map<string, int>, ids': map<string, int>, setup: Setup, sid: nat,
                                          l: Launch, start: real, n: nat)
    requires n <= |l.draws| + 1 && setup.size > 0 && Extends(ids, ids') && CoversTurns(ids, setup, l, n)
    ensures CoversTurns(ids', setup, l, n)
    ensures SessionTurns(ids', setup, sid, l, start, n) == SessionTurns(ids, setup, sid, l, start, n)
  {
    hide Encode, Covers, Extends;
    forall i | 0 <= i < n
      ensures Covers(ids', Words(setup, l, i))
      ensures TurnAt(ids', setup, sid, l, start, i) == TurnAt(ids, setup, sid, l, start, i)
    {
      EncodeIsStable(ids, ids', Words(setup, l, i));
    }
  }

  /** The inner loop: one session, turn after turn. */
  method GenerateSession(vocab: Vocabulary, setup: Setup, systemTokens: seq<int>, sid: nat, l: Launch, start: real)
    returns (turns: seq<TurnRequest>)
    requires vocab.Sound() && setup.size > 0
    requires Covers(vocab.ids, setup.system) && systemTokens == Encode(vocab.ids, setup.system)
    modifies vocab
    ensures vocab.Sound() && Extends(old(vocab.ids), vocab.ids)
    ensures CoversTurns(vocab.ids, setup, l, |l.draws| + 1)
    ensures turns == SessionTurns(vocab.ids, setup, sid, l, start, |l.draws| + 1)
  {
    ghost var first := vocab.ids;
    var asked := vocab.Tokenize(l.opening);
    OpeningTokens(first, vocab.ids, setup, l);
    hide Extends, Encode, Covers, CoversTurns, TurnAt, SessionTurns, ArrivalOf, Words, Messages, Blocks.Chain;
    var tokens, arrival := systemTokens + asked, start;
    var messages := [Message("system", setup.system, None), Message("user", l.opening, None)];
    var turn := MakeTurn(vocab, setup, sid, l, start, 0, tokens, arrival, messages, l.gen, None);
    turns := [turn];
    for k := 0 to |l.draws|
      invariant vocab.Sound() && Extends(old(vocab.ids), vocab.ids)
      invariant SoFar(vocab.ids, setup, sid, l, start, k, tokens, arrival, messages, turns)
    {
      ghost var before := vocab.ids;
      hide SoFar;
      tokens, arrival, messages, turns := AddTurn(vocab, setup, sid, l, start, k, tokens, arrival, messages, turns);
      ExtendsOn(old(vocab.ids), before, vocab.ids);
    }
  }

  /** What the loop has after turn `k`. */
  ghost predicate SoFar(ids: map<string, int>, setup: Setup, sid: nat, l: Launch, start: real, k: nat, tokens: seq<int>,
                        arrival: real, messages: seq<Message>, turns: seq<TurnRequest>)
    requires k <= |l.draws| && setup.size > 0
  {
    && CoversTurns(ids, setup, l, k + 1) && turns == SessionTurns(ids, setup, sid, l, start, k + 1)
    && TokensAt(ids, setup, l, k, tokens)
    && arrival == ArrivalOf(setup, l, start, k) && messages == Messages(setup, l, k)
  }

  /** One later turn: the reply, the tool call and its result, and the next question. */
  method AddTurn(vocab: Vocabulary, setup: Setup, sid: nat, l: Launch, start: real, k: nat, tokens: seq<int>,
                 arrival: real, messages: seq<Message>, turns: seq<TurnRequest>)
    returns (tokens': seq<int>, arrival': real, messages': seq<Message>, turns': seq<TurnRequest>)
    requires vocab.Sound() && setup.size > 0 && k < |l.draws|
    requires SoFar(vocab.ids, setup, sid, l, start, k, tokens, arrival, messages, turns)
    modifies vocab
    ensures vocab.Sound() && Extends(old(vocab.ids), vocab.ids)
    ensures SoFar(vocab.ids, setup, sid, l, start, k + 1, tokens', arrival', messages', turns')
  {
    hide Extends, Encode, Covers, CoversTurns, TurnAt, SessionTurns, ArrivalOf, Words, Messages, Dense;
    var d := l.draws[k];
    arrival' := arrival + Pause(setup, l.tool, d);
    var more := vocab.Tokenize(Segment(d));
    NextTokens(old(vocab.ids), vocab.ids, setup, l, k, tokens, more);
    TurnsAreStable(old(vocab.ids), vocab.ids, setup, sid, l, start, k + 1);
    NextMessages(setup, l, start, k);
    tokens', messages' := tokens + more, messages + NewMessages(l.tool, d);
    hide Segment, Pause, NewMessages;
    var turn := MakeTurn(vocab, setup, sid, l, start, k + 1, tokens', arrival', messages', d.gen, NameOf(l.tool));
    OneMoreTurn(vocab.ids, setup, sid, l, start, k + 1);
    turns' := turns + [turn];
  }

  ghost predicate TokensAt(ids: map<string, int>, setup: Setup, l: Launch, k: nat, tokens: seq<int>)
    requires k <= |l.draws|
  {
    Covers(ids, Words(setup, l, k)) && tokens == Encode(ids, Words(setup, l, k))
  }

  lemma {:induction false} OpeningTokens(ids: map<string, int>, ids': map<string, int>, setup: Setup, l: Launch)
    requires Extends(ids, ids') && Covers(ids, setup.system) && Covers(ids', l.opening)
    ensures TokensAt(ids', setup, l, 0, Encode(ids, setup.system) + Encode(ids', l.opening))
    ensures CoversTurns(ids', setup, l, 1)
  {
    EncodeIsStable(ids, ids', setup.system);
    EncodeJoins(ids', setup.system, l.opening);
    hide Encode, Covers, Extends;
  }

  lemma {:induction false} NextTokens(ids: map<string, int>, ids': map<string, int>, setup: Setup, l: Launch, k: nat,
                                      tokens: seq<int>, more: seq<int>)
    requires k < |l.draws| && Extends(ids, ids') && TokensAt(ids, setup, l, k, tokens)
    requires Covers(ids', Segment(l.draws[k])) && more == Encode(ids', Segment(l.draws[k]))
    ensures TokensAt(ids', setup, l, k + 1, tokens + more)
  {
    EncodeIsStable(ids, ids', Words(setup, l, k));
    EncodeJoins(ids', Words(setup, l, k), Segment(l.draws[k]));
    hide Encode, Covers, Extends, Segment;
  }

  lemma NextMessages(setup: Setup, l: Launch, start: real, k: nat)
    requires k < |l.draws|
    ensures Messages(setup, l, k + 1) == Messages(setup, l, k) + NewMessages(l.tool, l.draws[k])
    ensures ArrivalOf(setup, l, start, k + 1) == ArrivalOf(setup, l, start, k) + Pause(setup, l.tool, l.draws[k])
  {
  }

  lemma {:induction false} OneMoreTurn(ids: map<string, int>, setup: Setup, sid: nat, l: Launch, start: real, n: nat)
    requires n <= |l.draws| && setup.size > 0 && CoversTurns(ids, setup, l, n) && Covers(ids, Words(setup, l, n))
    ensures CoversTurns(ids, setup, l, n + 1)
    ensures SessionTurns(ids, setup, sid, l, start, n + 1) ==
            SessionTurns(ids, setup, sid, l, start, n) + [TurnAt(ids, setup, sid, l, start, n)]
  {
    hide Covers, TurnAt, Words;
  }

  /** Hash the prompt and put the request together. */
  method MakeTurn(vocab: Vocabulary, setup: Setup, sid: nat, l: Launch, start: real, k: nat, tokens: seq<int>,
                  arrival: real, messages: seq<Message>, gen: int, toolName: Option<string>)
    returns (turn: TurnRequest)
    requires k <= |l.draws| && setup.size > 0 && TokensAt(vocab.ids, setup, l, k, tokens)
    requires arrival == ArrivalOf(setup, l, start, k) && messages == Messages(setup, l, k)
    requires gen == if k == 0 then l.gen else l.draws[k - 1].gen
    requires toolName == if k == 0 then None else NameOf(l.tool)
    ensures turn == TurnAt(vocab.ids, setup, sid, l, start, k)
  {
    hide Encode, Words, Messages, ArrivalOf, Covers, Blocks.Chain;
    var hashes := Blocks.HashBlocks(setup.h, tokens, setup.size);
    turn := TurnRequest(sid, k, arrival, tokens, hashes, GenTokens(gen), messages, toolName);
  }

  // -------------------------------------------------------------------- the stream

  /** When session `i` is launched. */
  function StartOf(launches: seq<Launch>, i: nat): real
    requires i < |launches|
    decreases i
  {
    (if i == 0 then 0.0 else StartOf(launches, i - 1)) + launches[i].gap
  }

  /** All turns of the first `n` sessions, session by session. */
  function AllTurns(ids: map<string, int>, setup: Setup, launches: seq<Launch>, n: nat): seq<TurnRequest>
    requires n <= |launches| && setup.size > 0
    decreases n
  {
    if n == 0 then []
    else
      var l := launches[n - 1];
      AllTurns(ids, setup, launches, n - 1)
        + SessionTurns(ids, setup, n - 1, l, StartOf(launches, n - 1), |l.draws| + 1)
  }

  ghost predicate CoversAll(ids: map<string, int>, setup: Setup, launches: seq<Launch>, n: nat)
    requires n <= |launches|
  {
    forall i :: 0 <= i < n ==> CoversTurns(ids, setup, launches[i], |launches[i].draws| + 1)
  }

  lemma {:induction false} AllTurnsAreStable(ids: map<string, int>, ids': map<string, int>, setup: Setup,
                                             launches: seq<Launch>, n: nat)
    requires n <= |launches| && setup.size > 0 && Extends(ids, ids') && CoversAll(ids, setup, launches, n)
    ensures CoversAll(ids', setup, launches, n)
    ensures AllTurns(ids', setup, launches, n) == AllTurns(ids, setup, launches, n)
    decreases n
  {
    hide Extends, CoversTurns, SessionTurns, StartOf;
    if n > 0 {
      AllTurnsAreStable(ids, ids', setup, launches, n - 1);
      var l := launches[n - 1];
      TurnsAreStable(ids, ids', setup, n - 1, l, StartOf(launches, n - 1), |l.draws| + 1);
    }
  }

  /** `(arrival, session_id, turn_idx)` tuples in order. */
  predicate NotAfter(a: TurnRequest, b: TurnRequest) {
    a.arrival < b.arrival ||
    (a.arrival == b.arrival && (a.session < b.session || (a.session == b.session && a.turn <= b.turn)))
  }

  function Insert(r: TurnRequest, s: seq<TurnRequest>): seq<TurnRequest> {
    if s == [] || NotAfter(r, s[0]) then [r] + s else [s[0]] + Insert(r, s[1..])
  }

  /** The library sort by that key. */
  function Sorted(s: seq<TurnRequest>): seq<TurnRequest> {
    if s == [] then [] else Insert(s[0], Sorted(s[1..]))
  }

  ghost predicate InOrder(s: seq<TurnRequest>) {
    forall i, j :: 0 <= i < j < |s| ==> NotAfter(s[i], s[j])
  }

  lemma {:induction false} InsertFacts(r: TurnRequest, s: seq<TurnRequest>)
    requires InOrder(s)
    ensures InOrder(Insert(r, s)) && multiset(Insert(r, s)) == multiset{r} + multiset(s)
  {
    hide NotAfter;
    if s == [] || NotAfter(r, s[0]) {
      InsertInFront(r, s);
    } else {
      NotAfterIsTotal(r, s[0]);
      InsertFacts(r, s[1..]);
      assert s == [s[0]] + s[1..];
      var rest := Insert(r, s[1..]);
      forall i | 0 <= i < |rest| ensures NotAfter(s[0], rest[i]) {
        assert rest[i] in multiset(rest);
        assert rest[i] == r || rest[i] in s[1..];
      }
    }
  }

  lemma {:induction false} InsertInFront(r: TurnRequest, s: seq<TurnRequest>)
    requires InOrder(s) && (s == [] || NotAfter(r, s[0]))
    ensures InOrder([r] + s) && multiset([r] + s) == multiset{r} + multiset(s)
  {
    forall i | 0 <= i < |s| ensures NotAfter(r, s[i]) {
      assert i > 0 ==> NotAfter(s[0], s[i]);
    }
  }

  lemma NotAfterIsTotal(a: TurnRequest, b: TurnRequest)
    ensures NotAfter(a, b) || NotAfter(b, a)
  {
  }

  /** Sorting loses and invents nothing. */
  lemma {:induction false} SortedFacts(s: seq<TurnRequest>)
    ensures InOrder(Sorted(s)) && multiset(Sorted(s)) == multiset(s)
  {
    hide Insert, NotAfter;
    if s != [] {
      SortedFacts(s[1..]);
      InsertFacts(s[0], Sorted(s[1..]));
      assert s == [s[0]] + s[1..];
    }
  }

  /** The whole generated stream. */
  function Stream(ids: map<string, int>, setup: Setup, launches: seq<Launch>): seq<TurnRequest>
    requires setup.size > 0
  {
    Sorted(AllTurns(ids, setup, launches, |launches|))
  }

  /** The outer loop, and the final sort by arrival. */
  method GenerateSessions(vocab: Vocabulary, setup: Setup, launches: seq<Launch>) returns (requests: seq<TurnRequest>)
    requires vocab.Sound() && setup.size > 0
    modifies vocab
    ensures vocab.Sound() && Extends(old(vocab.ids), vocab.ids)
    ensures CoversAll(vocab.ids, setup, launches, |launches|)
    ensures requests == Stream(vocab.ids, setup, launches)
  {
    hide Extends, Encode, Covers, CoversTurns, SessionTurns;
    var systemTokens := vocab.Tokenize(setup.system);
    var all, start := [], 0.0;
    for sid := 0 to |launches|
      invariant vocab.Sound() && Extends(old(vocab.ids), vocab.ids)
      invariant Covers(vocab.ids, setup.system) && systemTokens == Encode(vocab.ids, setup.system)
      invariant CoversAll(vocab.ids, setup, launches, sid) && all == AllTurns(vocab.ids, setup, launches, sid)
      invariant start == if sid == 0 then 0.0 else StartOf(launches, sid - 1)
    {
      ghost var before := vocab.ids;
      start := start + launches[sid].gap;
      var turns := GenerateSession(vocab, setup, systemTokens, sid, launches[sid], start);
      ExtendsOn(old(vocab.ids), before, vocab.ids);
      EncodeIsStable(before, vocab.ids, setup.system);
      AllTurnsAreStable(before, vocab.ids, setup, launches, sid);
      all := all + turns;
    }
    requests := Sorted(all);
  }
}

/** What a router meets in a generated stream. */
module WorkloadLaws {
  import opened Basics
  import opened Workload
  import Blocks
  import Policies
  import Engine

  /** The request as a router sees it, read off its messages. */
  function View(r: TurnRequest): Policies.RequestView {
    Policies.RequestView(r.hashes, |r.tokens|, |r.messages|,
                         exists i :: 0 <= i < |r.messages| && r.messages[i].role == "tool",
                         if r.messages == [] then 0 else |r.messages[|r.messages| - 1].content|,
                         Some(r.session), r.toolName)
  }

  function Observed(r: TurnRequest): Engine.TurnRequest {
    Engine.TurnRequest(r.arrival, r.genTokens, "tool", View(r))
  }

  /** The stream as the engine replays it. */
  function Replayed(stream: seq<TurnRequest>): (reqs: seq<Engine.TurnRequest>)
    ensures |reqs| == |stream|
    ensures forall k :: 0 <= k < |stream| ==> reqs[k] == Observed(stream[k])
  {
    seq(|stream|, k requires 0 <= k < |stream| => Observed(stream[k]))
  }

  // ------------------------------------------------------------------ single sessions

  /** Later turns come no earlier, and extend the prompt, its hash chain and the messages. */
  ghost predicate Precedes(t: TurnRequest, t': TurnRequest) {
    t.arrival <= t'.arrival && t.tokens <= t'.tokens && t.hashes <= t'.hashes && t.messages <= t'.messages
  }

  lemma {:induction false} WordsGrow(setup: Setup, l: Launch, start: real, i: nat, j: nat)
    requires i <= j <= |l.draws| && SaneLaunch(setup, l)
    ensures Words(setup, l, i) <= Words(setup, l, j)
    ensures Messages(setup, l, i) <= Messages(setup, l, j)
    ensures ArrivalOf(setup, l, start, i) <= ArrivalOf(setup, l, start, j)
    decreases j
  {
    hide Segment, NewMessages;
    if i < j {
      WordsGrow(setup, l, start, i, j - 1);
    }
  }

  ghost predicate SaneLaunch(setup: Setup, l: Launch) {
    && setup.size > 0 && setup.thinkTime >= 0.0 && setup.nominalTurn >= 0.0
    && (l.tool.Some? ==> l.tool.value.successLatency >= 0.0)
  }

  lemma {:induction false} TurnsGrow(ids: map<string, int>, setup: Setup, sid: nat, l: Launch, start: real, i: nat,
                                     j: nat)
    requires i <= j <= |l.draws| && SaneLaunch(setup, l)
    ensures Precedes(TurnAt(ids, setup, sid, l, start, i), TurnAt(ids, setup, sid, l, start, j))
  {
    WordsGrow(setup, l, start, i, j);
    hide Words, Messages, ArrivalOf, Blocks.Chain, Encode;
    var w, w' := Words(setup, l, i), Words(setup, l, j);
    assert w' == w + w'[|w|..];
    EncodeJoins(ids, w, w'[|w|..]);
    Blocks.GrowingPromptExtendsChain(setup.h, Encode(ids, w), Encode(ids, w'[|w|..]), setup.size);
  }

  /** How a turn is classified: session turns are tool turns, unless the first question is as long as a document. */
  lemma {:induction false} TurnsAreClassified(ids: map<string, int>, setup: Setup, sid: nat, l: Launch, start: real,
                                              i: nat)
    requires i <= |l.draws| && setup.size > 0
    ensures Policies.Classify(View(TurnAt(ids, setup, sid, l, start, i))) ==
            if i == 0 && |l.opening| >= 128 then Policies.Rag else Policies.Tool
  {
    hide Encode, Blocks.Chain, Words, ArrivalOf;
    var messages := Messages(setup, l, i);
    if i > 0 {
      assert messages[|messages| - 2].role == "tool";
    }
  }

  // -------------------------------------------------------------------- the stream

  /** Every element of the stream is a turn of a session. */
  ghost predicate IsTurn(ids: map<string, int>, setup: Setup, launches: seq<Launch>, r: TurnRequest)
    requires setup.size > 0
  {
    && r.session < |launches| && r.turn <= |launches[r.session].draws|
    && r == TurnAt(ids, setup, r.session, launches[r.session], StartOf(launches, r.session), r.turn)
  }

  lemma {:induction false} AllAreTurns(ids: map<string, int>, setup: Setup, launches: seq<Launch>, n: nat,
                                       r: TurnRequest)
    requires n <= |launches| && setup.size > 0
    ensures r in AllTurns(ids, setup, launches, n) <==> r.session < n && IsTurn(ids, setup, launches, r)
    decreases n
  {
    hide TurnAt, StartOf;
    if n > 0 {
      AllAreTurns(ids, setup, launches, n - 1, r);
      SessionHas(ids, setup, n - 1, launches[n - 1], StartOf(launches, n - 1), r);
    }
  }

  lemma {:induction false} SessionHas(ids: map<string, int>, setup: Setup, sid: nat, l: Launch, start: real,
                                      r: TurnRequest)
    requires setup.size > 0
    ensures r in SessionTurns(ids, setup, sid, l, start, |l.draws| + 1) <==>
            r.session == sid && r.turn <= |l.draws| && r == TurnAt(ids, setup, sid, l, start, r.turn)
  {
    hide Encode, Blocks.Chain, Words, ArrivalOf, Messages;
    var turns := SessionTurns(ids, setup, sid, l, start, |l.draws| + 1);
    if r.session == sid && r.turn <= |l.draws| && r == TurnAt(ids, setup, sid, l, start, r.turn) {
      assert turns[r.turn] == r;
    }
  }

  /** The stream holds exactly the turns of all sessions, sorted by arrival. */
  lemma {:induction false} StreamHolds(ids: map<string, int>, setup: Setup, launches: seq<Launch>, r: TurnRequest)
    requires setup.size > 0
    ensures r in Stream(ids, setup, launches) <==> IsTurn(ids, setup, launches, r)
    ensures InOrder(Stream(ids, setup, launches))
  {
    hide TurnAt, NotAfter, Sorted;
    var all := AllTurns(ids, setup, launches, |launches|);
    SortedFacts(all);
    AllAreTurns(ids, setup, launches, |launches|, r);
    assert r in Sorted(all) <==> r in multiset(Sorted(all));
  }

  /** Turns of one conversation come in turn order, each extending the earlier ones. */
  lemma {:induction false} ConversationsGrow(ids: map<string, int>, setup: Setup, launches: seq<Launch>, i: nat, j: nat)
    requires Workload.Sane(setup, launches) && i < j < |Stream(ids, setup, launches)|
    requires Stream(ids, setup, launches)[i].session == Stream(ids, setup, launches)[j].session
    ensures Stream(ids, setup, launches)[i].turn <= Stream(ids, setup, launches)[j].turn
    ensures Precedes(Stream(ids, setup, launches)[i], Stream(ids, setup, launches)[j])
  {
    hide Stream, TurnAt, Words, Messages, ArrivalOf;
    var a, b := Stream(ids, setup, launches)[i], Stream(ids, setup, launches)[j];
    StreamHolds(ids, setup, launches, a);
    StreamHolds(ids, setup, launches, b);
    assert NotAfter(a, b);
    var l, start := launches[a.session], StartOf(launches, a.session);
    if a.turn <= b.turn {
      TurnsGrow(ids, setup, a.session, l, start, a.turn, b.turn);
    } else {
      TurnsGrow(ids, setup, a.session, l, start, b.turn, a.turn);
      assert false;
    }
  }

  lemma {:induction false} StartsAreNonNegative(setup: Setup, launches: seq<Launch>, i: nat)
    requires Workload.Sane(setup, launches) && i < |launches|
    ensures StartOf(launches, i) >= 0.0
    decreases i
  {
    if i > 0 {
      StartsAreNonNegative(setup, launches, i - 1);
    }
  }

  /** Arrivals start at 0 at the earliest and never decrease. */
  lemma {:induction false} ArrivalsAreOrdered(ids: map<string, int>, setup: Setup, launches: seq<Launch>, i: nat)
    requires Workload.Sane(setup, launches) && i < |Stream(ids, setup, launches)|
    ensures Stream(ids, setup, launches)[i].arrival >= 0.0
    ensures forall j :: i <= j < |Stream(ids, setup, launches)| ==>
              Stream(ids, setup, launches)[i].arrival <= Stream(ids, setup, launches)[j].arrival
  {
    hide Stream, StartOf, Words, Messages, Encode, Blocks.Chain;
    var s := Stream(ids, setup, launches);
    StreamHolds(ids, setup, launches, s[i]);
    StartsAreNonNegative(setup, launches, s[i].session);
    WordsGrow(setup, launches[s[i].session], StartOf(launches, s[i].session), 0, s[i].turn);
    forall j | i <= j < |s| ensures s[i].arrival <= s[j].arrival {
      assert i < j ==> NotAfter(s[i], s[j]);
    }
  }
}
