/**
 * The token-budget conversation compressor
 * (src/factories/chat_message_compressor.ts).
 *
 * The tokenizer is external: `get_encoding(encoding)` is a parameter that
 * yields the token counter for an encoding. The asynchronous probes of the
 * source run one after another, so `Compress` is a synchronous loop.
 */
module Compressor {
  import opened Wrappers
  import opened ChatMessage

  /** `get_encoding(encoding).calculate_tokens`: the token count of a text under an encoding. */
  type GetEncoding = string -> (string -> nat)

  /** `{ encoding?, max_tokens?, user_label?, assistant_label? }`. */
  datatype CompressOptions = CompressOptions(
    encoding: Option<string>,
    maxTokens: Option<int>,
    userLabel: Option<string>,
    assistantLabel: Option<string>)

  /** What `calculate` reads from a compressor: its encoder and its two labels. */
  datatype Settings = Settings(
    countTokens: string -> nat,
    userLabel: string,
    assistantLabel: string)

  /** A candidate pair: a user turn and the non-user turn it is sent with. */
  datatype Pair = Pair(user: Message, reply: Message)

  /** The array `compress` returns; `promptMissing` means it ends in `undefined`. */
  datatype Compressed = Compressed(turns: seq<Message>, promptMissing: bool)

  predicate IsUser(m: Message) {
    ChatMessageToOpenAIRole(m) == "user"
  }

  predicate IsSystem(m: Message) {
    ChatMessageToOpenAIRole(m) == "system"
  }

  // ---------------------------------------------------------------------
  // calculate: rendering a probe and counting its tokens
  // ---------------------------------------------------------------------

  /** The heading of a rendered turn: "Instructions" for system, else the user or the assistant label. */
  function Label(s: Settings, m: Message): string {
    if IsSystem(m) then "Instructions" else if IsUser(m) then s.userLabel else s.assistantLabel
  }

  /** One turn of a probe: its heading, a colon and a newline, then its text. */
  function Render(s: Settings, m: Message): (r: string)
    ensures IsSystem(m) ==> r == "Instructions:\n" + ChatMessageToText(m)
    ensures IsUser(m) ==> r == s.userLabel + ":\n" + ChatMessageToText(m)
    ensures !IsSystem(m) && !IsUser(m) ==> r == s.assistantLabel + ":\n" + ChatMessageToText(m)
  {
    Label(s, m) + ":\n" + ChatMessageToText(m)
  }

  /** The `reduce` of calculate: one rendered part per turn, in order. */
  function RenderAll(s: Settings, ms: seq<Message>): (r: seq<string>)
    ensures |r| == |ms|
  {
    if ms == [] then [] else RenderAll(s, ms[..|ms| - 1]) + [Render(s, ms[|ms| - 1])]
  }

  /** The rendered parts are the turns rendered one by one, in order. */
  lemma {:induction false} RenderAllInOrder(s: Settings, ms: seq<Message>)
    ensures forall i :: 0 <= i < |ms| ==> RenderAll(s, ms)[i] == Render(s, ms[i])
  {
    if ms != [] {
      var init := ms[..|ms| - 1];
      RenderAllInOrder(s, init);
      assert RenderAll(s, ms) == RenderAll(s, init) + [Render(s, ms[|ms| - 1])];
      forall i | 0 <= i < |ms|
        ensures RenderAll(s, ms)[i] == Render(s, ms[i])
      {
        if i < |ms| - 1 {
          assert ms[i] == init[i];
        }
      }
    }
  }

  /** `Array.prototype.join(sep)`. */
  function Join(parts: seq<string>, sep: string): (r: string)
    ensures parts == [] ==> r == ""
    ensures |parts| == 1 ==> r == parts[0]
  {
    if parts == [] then ""
    else if |parts| == 1 then parts[0]
    else Join(parts[..|parts| - 1], sep) + sep + parts[|parts| - 1]
  }

  /** Joining reads the same from the front: the first part, the separator, the rest joined. */
  lemma {:induction false} JoinFromFront(p: string, parts: seq<string>, sep: string)
    requires parts != []
    ensures Join([p] + parts, sep) == p + sep + Join(parts, sep)
  {
    if |parts| > 1 {
      var init := parts[..|parts| - 1];
      JoinFromFront(p, init, sep);
      assert ([p] + parts)[..|parts|] == [p] + init;
    }
  }

  /** calculate: the token count of the probe's parts joined by blank lines. */
  function Calculate(s: Settings, ms: seq<Message>): nat {
    s.countTokens(Join(RenderAll(s, ms), "\n\n"))
  }

  /** A token count of a list of turns; the budget loop is stated for any such count. */
  type Cost = seq<Message> -> nat

  /** A compressor's calculate, as a function value. */
  function ProbeCost(s: Settings): Cost {
    ms => Calculate(s, ms)
  }

  // ---------------------------------------------------------------------
  // The candidate walk
  // ---------------------------------------------------------------------

  /**
   * get_next_messages: pop the middle turns from the newest; a non-user turn
   * becomes the held reply (never cleared); a user turn is yielded with the
   * held reply, or skipped when there is none yet.
   */
  function Walk(rest: seq<Message>, held: Option<Message>): seq<Pair>
    decreases |rest|
  {
    if rest == [] then []
    else
      var m := rest[|rest| - 1];
      var before := rest[..|rest| - 1];
      if IsUser(m) then
        if held.None? then Walk(before, held) else [Pair(m, held.value)] + Walk(before, held)
      else Walk(before, Some(m))
  }

  /** The first non-user turn at or after position `j`. */
  function NextReply(mid: seq<Message>, j: nat): (r: Option<nat>)
    requires j <= |mid|
    ensures r.Some? ==> j <= r.value < |mid| && !IsUser(mid[r.value])
                        && forall l :: j <= l < r.value ==> IsUser(mid[l])
    ensures r.None? ==> forall l :: j <= l < |mid| ==> IsUser(mid[l])
    decreases |mid| - j
  {
    if j == |mid| then None
    else if !IsUser(mid[j]) then Some(j)
    else NextReply(mid, j + 1)
  }

  /**
   * The candidates among the turns before position `n`, newest first, defined
   * directly: each user turn that has a later non-user turn, paired with the
   * nearest such turn.
   */
  function CandidatesBelow(mid: seq<Message>, n: nat): seq<Pair>
    requires n <= |mid|
  {
    if n == 0 then []
    else
      var i := n - 1;
      var here := if IsUser(mid[i]) && NextReply(mid, i + 1).Some?
                  then [Pair(mid[i], mid[NextReply(mid, i + 1).value])] else [];
      here + CandidatesBelow(mid, i)
  }

  function HeldAt(mid: seq<Message>, n: nat): Option<Message>
    requires n <= |mid|
  {
    match NextReply(mid, n)
    case Some(j) => Some(mid[j])
    case None => None
  }

  lemma {:induction false} WalkFromPosition(mid: seq<Message>, n: nat)
    requires n <= |mid|
    ensures Walk(mid[..n], HeldAt(mid, n)) == CandidatesBelow(mid, n)
  {
    if n > 0 {
      WalkFromPosition(mid, n - 1);
      assert mid[..n][..n - 1] == mid[..n - 1];
      assert mid[..n][n - 1] == mid[n - 1];
      if IsUser(mid[n - 1]) {
        assert NextReply(mid, n - 1) == NextReply(mid, n);
      }
    }
  }

  /**
   * The walk pairs every user turn with the nearest later non-user turn and
   * drops user turns that have none; a reply can serve several user turns.
   */
  lemma CandidatesAreNearestReplies(mid: seq<Message>)
    ensures Walk(mid, None) == CandidatesBelow(mid, |mid|)
  {
    WalkFromPosition(mid, |mid|);
    assert mid[..|mid|] == mid;
  }

  /** Every candidate is a user turn with a non-user reply. */
  lemma {:induction false} CandidateRoles(rest: seq<Message>, held: Option<Message>)
    requires held.Some? ==> !IsUser(held.value)
    ensures forall p :: p in Walk(rest, held) ==> IsUser(p.user) && !IsUser(p.reply)
    decreases |rest|
  {
    if rest != [] {
      var m := rest[|rest| - 1];
      if IsUser(m) {
        CandidateRoles(rest[..|rest| - 1], held);
      } else {
        CandidateRoles(rest[..|rest| - 1], Some(m));
      }
    }
  }

  // ---------------------------------------------------------------------
  // The greedy budget loop
  // ---------------------------------------------------------------------

  /** Accepted pairs in conversation order: the newest pair is last. */
  function Chronological(ps: seq<Pair>): (r: seq<Message>)
    ensures |r| == 2 * |ps|
  {
    if ps == [] then []
    else
      Chronological(ps[1..]) + [ps[0].user, ps[0].reply]
  }

  /** Pair j of the output counts back from the newest accepted candidate. */
  lemma {:induction false} ChronologicalOrder(ps: seq<Pair>)
    ensures forall j :: 0 <= j < |ps| ==>
              Chronological(ps)[2 * j] == ps[|ps| - 1 - j].user && Chronological(ps)[2 * j + 1] == ps[|ps| - 1 - j].reply
  {
    if ps != [] {
      ChronologicalOrder(ps[1..]);
      forall j | 0 <= j < |ps|
        ensures Chronological(ps)[2 * j] == ps[|ps| - 1 - j].user && Chronological(ps)[2 * j + 1] == ps[|ps| - 1 - j].reply
      {
        if j < |ps| - 1 {
          assert ps[|ps| - 1 - j] == ps[1..][|ps[1..]| - 1 - j];
        }
      }
    }
  }

  function SystemSlot(system: Option<Message>): seq<Message> {
    if system.Some? then [system.value] else []
  }

  /** The probe for a candidate: the accepted turns, the candidate, the prompt, then the system turn. */
  function Probe(accepted: seq<Message>, p: Pair, prompt: Message, system: Option<Message>): seq<Message> {
    accepted + [p.user, p.reply, prompt] + SystemSlot(system)
  }

  /** Whether candidate `i`'s probe, with candidates `0..i` accepted, is within the budget. */
  predicate Fits(cost: Cost, budget: int, cands: seq<Pair>, i: nat, prompt: Message, system: Option<Message>)
    requires i < |cands|
  {
    cost(Probe(Chronological(cands[..i]), cands[i], prompt, system)) <= budget
  }

  /**
   * The number of candidates the loop accepts: every probe before it fits
   * (equality included), and the one at it, if any, does not.
   */
  function AcceptedCount(cost: Cost, budget: int, cands: seq<Pair>, prompt: Message, system: Option<Message>, i: nat): (k: nat)
    requires i <= |cands|
    ensures i <= k <= |cands|
    ensures forall j :: i <= j < k ==> Fits(cost, budget, cands, j, prompt, system)
    ensures k < |cands| ==> !Fits(cost, budget, cands, k, prompt, system)
    decreases |cands| - i
  {
    if i == |cands| then i
    else if Fits(cost, budget, cands, i, prompt, system) then AcceptedCount(cost, budget, cands, prompt, system, i + 1)
    else i
  }

  /** The accepted count is the only prefix length whose probes all fit and that stops at a failing probe. */
  lemma AcceptedCountIsUnique(cost: Cost, budget: int, cands: seq<Pair>, prompt: Message, system: Option<Message>, k: nat)
    requires k <= |cands|
    requires forall j :: 0 <= j < k ==> Fits(cost, budget, cands, j, prompt, system)
    requires k < |cands| ==> !Fits(cost, budget, cands, k, prompt, system)
    ensures k == AcceptedCount(cost, budget, cands, prompt, system, 0)
  {
  }

  /** One step of the loop: the next candidate is taken and the accepted turns grow at the front. */
  lemma NextCandidate(cands: seq<Pair>, taken: nat, p: Pair, rest: seq<Pair>)
    requires taken <= |cands|
    requires cands == cands[..taken] + [p] + rest
    ensures taken < |cands| && cands[taken] == p
    ensures cands[..taken + 1] == cands[..taken] + [p]
    ensures Chronological(cands[..taken + 1]) == [p.user, p.reply] + Chronological(cands[..taken])
    ensures cands == cands[..taken + 1] + rest
  {
    ChronologicalPush(cands[..taken], p);
  }

  /** A pair taken after the others comes first in conversation order. */
  lemma {:induction false} ChronologicalPush(ps: seq<Pair>, p: Pair)
    ensures Chronological(ps + [p]) == [p.user, p.reply] + Chronological(ps)
  {
    if ps != [] {
      ChronologicalPush(ps[1..], p);
      assert (ps + [p])[1..] == ps[1..] + [p];
    }
  }

  // ---------------------------------------------------------------------
  // compress
  // ---------------------------------------------------------------------

  predicate HasSystem(messages: seq<Message>) {
    |messages| > 0 && IsSystem(messages[0])
  }

  /** What compress returns, as a function of its token count, its budget and its input. */
  function CompressSpec(cost: Cost, budget: int, messages: seq<Message>): Compressed {
    if messages == [] then Compressed([], false)
    else if |messages| == SystemCount(messages) then Compressed(messages, true)
    else
      var kept := Chronological(CandidatesOf(messages)[..KeptCount(cost, budget, messages)]);
      Compressed(SystemSlot(SystemOf(messages)) + kept + [PromptOf(messages)], false)
  }

  /** CompressSpec for a conversation split into its system slot, its middle turns and its prompt. */
  lemma CompressSpecOfParts(cost: Cost, budget: int, messages: seq<Message>, mid: seq<Message>, prompt: Message, system: Option<Message>)
    requires |messages| > SystemCount(messages)
    requires system == SystemOf(messages)
    requires messages[SystemCount(messages)..] == mid + [prompt]
    ensures var cands := Walk(mid, None);
            CompressSpec(cost, budget, messages)
            == Compressed(SystemSlot(system) + Chronological(cands[..AcceptedCount(cost, budget, cands, prompt, system, 0)]) + [prompt], false)
  {
    var sys := SystemCount(messages);
    assert MiddleOf(messages) == messages[sys..][..|messages| - 1 - sys] == mid;
    assert PromptOf(messages) == messages[sys..][|messages| - 1 - sys] == prompt;
  }

  /** The number of leading system turns compress keeps: 1 or 0. */
  function SystemCount(messages: seq<Message>): nat {
    if HasSystem(messages) then 1 else 0
  }

  /** The leading system turn compress keeps aside, if any. */
  function SystemOf(messages: seq<Message>): Option<Message> {
    if HasSystem(messages) then Some(messages[0]) else None
  }

  /** The prompt: the last turn. */
  function PromptOf(messages: seq<Message>): Message
    requires messages != []
  {
    messages[|messages| - 1]
  }

  /** The number of candidate pairs compress keeps. */
  function KeptCount(cost: Cost, budget: int, messages: seq<Message>): nat
    requires |messages| > SystemCount(messages)
  {
    AcceptedCount(cost, budget, CandidatesOf(messages), PromptOf(messages), SystemOf(messages), 0)
  }

  /** The turns between the system slot and the prompt, from which the candidates are drawn. */
  function MiddleOf(messages: seq<Message>): seq<Message>
    requires |messages| > SystemCount(messages)
  {
    messages[SystemCount(messages)..|messages| - 1]
  }

  /** The candidates compress considers for a conversation with at least one turn after the system slot. */
  function CandidatesOf(messages: seq<Message>): seq<Pair>
    requires |messages| > SystemCount(messages)
  {
    Walk(MiddleOf(messages), None)
  }

  /**
   * The ends of the output: empty input gives empty output; a lone system
   * turn gives the system turn and `undefined`; otherwise the output starts
   * with the system turn when the input does and always ends with the prompt.
   */
  lemma CompressKeepsEnds(cost: Cost, budget: int, messages: seq<Message>)
    ensures messages == [] ==> CompressSpec(cost, budget, messages) == Compressed([], false)
    ensures |messages| == 1 && HasSystem(messages) ==> CompressSpec(cost, budget, messages) == Compressed(messages, true)
    ensures messages != [] && !(|messages| == 1 && HasSystem(messages)) ==>
              var r := CompressSpec(cost, budget, messages);
              !r.promptMissing && r.turns != [] && r.turns[|r.turns| - 1] == messages[|messages| - 1]
    ensures HasSystem(messages) ==> CompressSpec(cost, budget, messages).turns[0] == messages[0]
  {
  }

  /**
   * The shape of the output: the system slot, then the first k candidates as
   * pairs of a user turn and its non-user reply, newest last, then the
   * prompt, where k is the number of candidates the budget loop accepts.
   */
  lemma CompressShape(cost: Cost, budget: int, messages: seq<Message>)
    requires |messages| > SystemCount(messages)
    ensures var sys := SystemCount(messages);
            var cands := CandidatesOf(messages);
            var k := KeptCount(cost, budget, messages);
            var t := CompressSpec(cost, budget, messages).turns;
            && |t| == sys + 2 * k + 1
            && t[..sys] == SystemSlot(SystemOf(messages))
            && t[|t| - 1] == PromptOf(messages)
            && (forall j :: 0 <= j < k ==> t[sys + 2 * j] == cands[k - 1 - j].user && t[sys + 2 * j + 1] == cands[k - 1 - j].reply)
            && (forall j :: 0 <= j < k ==> IsUser(t[sys + 2 * j]) && !IsUser(t[sys + 2 * j + 1]))
  {
    var t := CompressSpec(cost, budget, messages).turns;
    CompressTurns(cost, budget, messages);
    AcceptedShape(CandidatesOf(messages), KeptCount(cost, budget, messages), SystemSlot(SystemOf(messages)), PromptOf(messages), t);
  }

  /** The output turns in terms of the candidates, which are all user turns with non-user replies. */
  lemma CompressTurns(cost: Cost, budget: int, messages: seq<Message>)
    requires |messages| > SystemCount(messages)
    ensures forall p :: p in CandidatesOf(messages) ==> IsUser(p.user) && !IsUser(p.reply)
    ensures |SystemSlot(SystemOf(messages))| == SystemCount(messages)
    ensures CompressSpec(cost, budget, messages).turns
            == SystemSlot(SystemOf(messages)) + Chronological(CandidatesOf(messages)[..KeptCount(cost, budget, messages)]) + [PromptOf(messages)]
  {
    CandidateRoles(MiddleOf(messages), None);
  }

  /** The accepted pairs between a head and the prompt alternate user and non-user turns, newest last. */
  lemma AcceptedShape(cands: seq<Pair>, k: nat, head: seq<Message>, prompt: Message, turns: seq<Message>)
    requires k <= |cands|
    requires forall p :: p in cands ==> IsUser(p.user) && !IsUser(p.reply)
    requires turns == head + Chronological(cands[..k]) + [prompt]
    ensures var h := |head|;
            && |turns| == h + 2 * k + 1
            && turns[..h] == head
            && turns[|turns| - 1] == prompt
            && (forall j :: 0 <= j < k ==> IsUser(turns[h + 2 * j]) && !IsUser(turns[h + 2 * j + 1]))
            && (forall j :: 0 <= j < k ==> turns[h + 2 * j] == cands[k - 1 - j].user && turns[h + 2 * j + 1] == cands[k - 1 - j].reply)
  {
    var h := |head|;
    AcceptedPairs(cands, k, head, prompt);
    forall j | 0 <= j < k
      ensures IsUser(turns[h + 2 * j]) && !IsUser(turns[h + 2 * j + 1])
    {
      assert cands[k - 1 - j] in cands;
    }
  }

  /** Pair j between the head and the prompt is candidate k-1-j. */
  lemma AcceptedPairs(cands: seq<Pair>, k: nat, head: seq<Message>, prompt: Message)
    requires k <= |cands|
    ensures var turns := head + Chronological(cands[..k]) + [prompt];
            var h := |head|;
            && |turns| == h + 2 * k + 1
            && turns[..h] == head
            && turns[|turns| - 1] == prompt
            && (forall j :: 0 <= j < k ==> turns[h + 2 * j] == cands[k - 1 - j].user && turns[h + 2 * j + 1] == cands[k - 1 - j].reply)
  {
    var acc := Chronological(cands[..k]);
    var turns := head + acc + [prompt];
    var h := |head|;
    ChronologicalOrder(cands[..k]);
    forall j | 0 <= j < k
      ensures turns[h + 2 * j] == cands[k - 1 - j].user && turns[h + 2 * j + 1] == cands[k - 1 - j].reply
    {
      assert cands[..k][k - 1 - j] == cands[k - 1 - j];
      assert turns[h + 2 * j] == acc[2 * j] && turns[h + 2 * j + 1] == acc[2 * j + 1];
    }
  }

  /** When the very first probe is over budget, only the system slot and the prompt remain. */
  lemma TightBudgetKeepsMinimum(cost: Cost, budget: int, messages: seq<Message>)
    requires |messages| > SystemCount(messages)
    requires CandidatesOf(messages) != [] ==> !Fits(cost, budget, CandidatesOf(messages), 0, PromptOf(messages), SystemOf(messages))
    ensures CompressSpec(cost, budget, messages).turns == messages[..SystemCount(messages)] + [messages[|messages| - 1]]
  {
    assert CandidatesOf(messages)[..0] == [];
  }

  // ---------------------------------------------------------------------
  // Compressing twice
  // ---------------------------------------------------------------------

  /** Walking the turns of accepted pairs gives those pairs back, newest first. */
  lemma {:induction false} WalkChronological(ps: seq<Pair>, held: Option<Message>)
    requires forall p :: p in ps ==> IsUser(p.user) && !IsUser(p.reply)
    ensures Walk(Chronological(ps), held) == ps
  {
    if ps != [] {
      var rest := Chronological(ps[1..]);
      var withUser := rest + [ps[0].user];
      var all := withUser + [ps[0].reply];
      assert Chronological(ps) == all;
      assert all[|all| - 1] == ps[0].reply && all[..|all| - 1] == withUser;
      assert withUser[|withUser| - 1] == ps[0].user && withUser[..|withUser| - 1] == rest;
      WalkChronological(ps[1..], Some(ps[0].reply));
      assert ps == [Pair(ps[0].user, ps[0].reply)] + ps[1..];
    }
  }

  /** A prefix of candidates whose probes all fit is accepted in full when it is all there is. */
  lemma PrefixIsAccepted(cost: Cost, budget: int, cands: seq<Pair>, prompt: Message, system: Option<Message>, k: nat)
    requires k <= |cands|
    requires forall j :: 0 <= j < k ==> Fits(cost, budget, cands, j, prompt, system)
    ensures AcceptedCount(cost, budget, cands[..k], prompt, system, 0) == k
  {
    forall j | 0 <= j < k
      ensures Fits(cost, budget, cands[..k], j, prompt, system)
    {
      assert cands[..k][..j] == cands[..j] && cands[..k][j] == cands[j];
      assert Fits(cost, budget, cands, j, prompt, system);
    }
    AcceptedCountIsUnique(cost, budget, cands[..k], prompt, system, k);
  }

  /**
   * Compressing the output again changes nothing, whatever the token counts,
   * unless the output is a lone system turn (see NotIdempotentEdge).
   */
  lemma Idempotent(cost: Cost, budget: int, messages: seq<Message>)
    requires var t := CompressSpec(cost, budget, messages).turns; !(|t| == 1 && IsSystem(t[0]))
    ensures CompressSpec(cost, budget, CompressSpec(cost, budget, messages).turns) == CompressSpec(cost, budget, messages)
  {
    if |messages| > SystemCount(messages) {
      CandidateRoles(MiddleOf(messages), None);
      RecompressAccepted(cost, budget, CandidatesOf(messages), KeptCount(cost, budget, messages), PromptOf(messages), SystemOf(messages));
    }
  }

  /** An output made of a system slot, accepted pairs whose probes all fit, and a prompt compresses to itself. */
  lemma RecompressAccepted(cost: Cost, budget: int, cands: seq<Pair>, k: nat, prompt: Message, system: Option<Message>)
    requires k <= |cands|
    requires forall p :: p in cands ==> IsUser(p.user) && !IsUser(p.reply)
    requires forall j :: 0 <= j < k ==> Fits(cost, budget, cands, j, prompt, system)
    requires system.Some? ==> IsSystem(system.value)
    requires system.None? && k == 0 ==> !IsSystem(prompt)
    ensures var t := SystemSlot(system) + Chronological(cands[..k]) + [prompt];
            CompressSpec(cost, budget, t) == Compressed(t, false)
  {
    var kept := Chronological(cands[..k]);
    var t := SystemSlot(system) + kept + [prompt];
    WalkChronological(cands[..k], None);
    PrefixIsAccepted(cost, budget, cands, prompt, system, k);
    assert cands[..k][..k] == cands[..k];
    SplitAgain(cands, k, prompt, system);
    CompressSpecOfParts(cost, budget, t, kept, prompt, system);
  }

  /** The output's leading turn is a system turn exactly when the input had one, so it splits the same way. */
  lemma SplitAgain(cands: seq<Pair>, k: nat, prompt: Message, system: Option<Message>)
    requires k <= |cands|
    requires forall p :: p in cands ==> IsUser(p.user) && !IsUser(p.reply)
    requires system.Some? ==> IsSystem(system.value)
    requires system.None? && k == 0 ==> !IsSystem(prompt)
    ensures var t := SystemSlot(system) + Chronological(cands[..k]) + [prompt];
            && |t| > SystemCount(t) && SystemOf(t) == system
            && t[SystemCount(t)..] == Chronological(cands[..k]) + [prompt]
  {
    var kept := Chronological(cands[..k]);
    var t := SystemSlot(system) + kept + [prompt];
    if system.Some? {
      assert t[0] == system.value && t[1..] == kept + [prompt];
    } else if k > 0 {
      assert cands[..k] == cands[..k - 1] + [cands[k - 1]];
      ChronologicalPush(cands[..k - 1], cands[k - 1]);
      assert t[0] == kept[0] == cands[k - 1].user;
    }
  }

  /**
   * The exception: [user, system-role prompt] compresses to the lone prompt,
   * and a lone system turn compresses to that turn and `undefined`.
   */
  lemma NotIdempotentEdge(cost: Cost, budget: int, u: Message, s: Message)
    requires IsUser(u) && IsSystem(s)
    ensures CompressSpec(cost, budget, [u, s]) == Compressed([s], false)
    ensures CompressSpec(cost, budget, [s]) == Compressed([s], true)
  {
    assert [u, s][..1] == [u] && [u][..0] == [];
    assert Walk([u], None) == [];
    var none: seq<Pair> := [];
    assert none[..0] == none;
  }

  // ---------------------------------------------------------------------
  // Worked conversations
  // ---------------------------------------------------------------------

  /**
   * A reply is reused: for [u1, u2, a, p] with every probe within budget the
   * output is [u1, a, u2, a, p], longer than the input and not a slice of it.
   */
  lemma ReusedReplyExample(cost: Cost, budget: int, u1: Message, u2: Message, a: Message, p: Message)
    requires IsUser(u1) && IsUser(u2) && !IsUser(a)
    requires forall ms :: cost(ms) <= budget
    ensures CompressSpec(cost, budget, [u1, u2, a, p]) == Compressed([u1, a, u2, a, p], false)
  {
    var mid := [u1, u2, a];
    assert [u1, u2, a, p][..3] == mid;
    assert mid[..2] == [u1, u2] && [u1, u2][..1] == [u1] && [u1][..0] == [];
    var cands := [Pair(u2, a), Pair(u1, a)];
    assert Walk([u1], Some(a)) == [Pair(u1, a)];
    assert Walk([u1, u2], Some(a)) == [Pair(u2, a), Pair(u1, a)];
    assert Walk(mid, None) == cands;
    assert cands[..0] == [] && cands[..1] == [Pair(u2, a)] && cands[..2] == cands;
    assert AcceptedCount(cost, budget, cands, p, None, 0) == 2;
    assert Chronological([Pair(u1, a)]) == [u1, a];
    assert Chronological(cands) == [u1, a, u2, a];
  }

  /**
   * Newest pairs are tried first: in [system, u1, a1, u2, a2, u3, a3, u4],
   * when (u3, a3) fits but adding (u2, a2) does not, the output is
   * [system, u3, a3, u4]. The second probe is [u3, a3, u2, a2, u4, system].
   */
  lemma OnePairFitsScenario(cost: Cost, budget: int, sys: Message, u1: Message, a1: Message, u2: Message, a2: Message,
                            u3: Message, a3: Message, u4: Message)
    requires IsSystem(sys)
    requires IsUser(u1) && IsUser(u2) && IsUser(u3)
    requires !IsUser(a1) && !IsUser(a2) && !IsUser(a3)
    requires cost([u3, a3, u4, sys]) <= budget
    requires cost([u3, a3, u2, a2, u4, sys]) > budget
    ensures CompressSpec(cost, budget, [sys, u1, a1, u2, a2, u3, a3, u4]) == Compressed([sys, u3, a3, u4], false)
  {
    var messages := [sys, u1, a1, u2, a2, u3, a3, u4];
    var mid := [u1, a1, u2, a2, u3, a3];
    assert SystemCount(messages) == 1 && MiddleOf(messages) == mid;
    assert mid[..5] == [u1, a1, u2, a2, u3];
    assert mid[..5][..4] == [u1, a1, u2, a2];
    assert mid[..5][..4][..3] == [u1, a1, u2];
    assert mid[..5][..4][..3][..2] == [u1, a1];
    assert mid[..5][..4][..3][..2][..1] == [u1];
    assert [u1][..0] == [];
    var cands := [Pair(u3, a3), Pair(u2, a2), Pair(u1, a1)];
    assert Walk([u1], Some(a1)) == [Pair(u1, a1)];
    assert Walk([u1, a1], Some(a2)) == [Pair(u1, a1)];
    assert Walk([u1, a1, u2], Some(a2)) == [Pair(u2, a2), Pair(u1, a1)];
    assert Walk([u1, a1, u2, a2], Some(a3)) == [Pair(u2, a2), Pair(u1, a1)];
    assert Walk([u1, a1, u2, a2, u3], Some(a3)) == cands;
    assert Walk(mid, None) == cands;
    assert cands[..0] == [] && cands[..1] == [Pair(u3, a3)];
    assert Probe([], cands[0], u4, Some(sys)) == [u3, a3, u4, sys];
    assert Chronological(cands[..1]) == [u3, a3];
    assert Probe([u3, a3], cands[1], u4, Some(sys)) == [u3, a3, u2, a2, u4, sys];
    assert AcceptedCount(cost, budget, cands, u4, Some(sys), 0) == 1;
  }

  // ---------------------------------------------------------------------
  // The compressor object
  // ---------------------------------------------------------------------

  class ChatMessageCompressor {
    const encoder: string -> nat
    const maxTokens: int
    const userLabel: string
    const assistantLabel: string
    /** calculate: it reads only the encoder and the labels, which never change after construction. */
    const calculate: Cost

    /**
     * The defaults use `||`, so 0 and "" are replaced too: 4000 tokens,
     * "User" and "Assistant"; the encoding defaults to cl100k_base only when absent.
     */
    constructor (options: CompressOptions, getEncoding: GetEncoding)
      ensures encoder == getEncoding(if options.encoding.Some? then options.encoding.value else "cl100k_base")
      ensures userLabel == (if options.userLabel.Some? && options.userLabel.value != "" then options.userLabel.value else "User")
      ensures assistantLabel == (if options.assistantLabel.Some? && options.assistantLabel.value != ""
                                 then options.assistantLabel.value else "Assistant")
      ensures maxTokens == (if options.maxTokens.Some? && options.maxTokens.value != 0 then options.maxTokens.value else 4000)
      ensures calculate == ProbeCost(Settings(encoder, userLabel, assistantLabel))
    {
      var enc := getEncoding(if options.encoding.Some? then options.encoding.value else "cl100k_base");
      var user := if options.userLabel.Some? && options.userLabel.value != "" then options.userLabel.value else "User";
      var assistant := if options.assistantLabel.Some? && options.assistantLabel.value != ""
                       then options.assistantLabel.value else "Assistant";
      encoder := enc;
      userLabel := user;
      assistantLabel := assistant;
      maxTokens := if options.maxTokens.Some? && options.maxTokens.value != 0 then options.maxTokens.value else 4000;
      calculate := ProbeCost(Settings(enc, user, assistant));
    }

    /**
     * compress: copies the caller's turns, pops the prompt, then keeps the
     * newest candidate pairs that fit. The caller's array is only read.
     */
    method Compress(messages: array<Message>) returns (out: seq<Message>, promptMissing: bool)
      ensures Compressed(out, promptMissing) == CompressSpec(calculate, maxTokens, messages[..])
    {
      var turns := messages[..];
      if |turns| == 0 {
        CompressKeepsEnds(calculate, maxTokens, turns);
        return [], false;
      }
      var hasSystem := IsSystem(turns[0]);
      var offset := if hasSystem then 1 else 0;
      var chat := turns[offset..];
      if chat == [] {
        assert turns == [turns[0]];
        CompressKeepsEnds(calculate, maxTokens, turns);
        return turns, true;
      }
      var prompt := chat[|chat| - 1];
      chat := chat[..|chat| - 1];
      var system := if hasSystem then Some(turns[0]) else None;
      var compressed := KeepRecent(chat, prompt, system);
      if hasSystem {
        compressed := [turns[0]] + compressed;
      }
      assert CompressSpec(calculate, maxTokens, turns) == Compressed(compressed + [prompt], false) by {
        assert offset == SystemCount(turns) && turns[offset..] == chat + [prompt];
        CompressSpecOfParts(calculate, maxTokens, turns, chat, prompt, system);
      }
      return compressed + [prompt], false;
    }

    /**
     * The generator and the `for ... of` loop of compress, interleaved: pop
     * turns from the newest, and probe each candidate pair with the accepted
     * turns, the prompt and the system turn; stop at the first that is over
     * the budget.
     */
    method KeepRecent(chat: seq<Message>, prompt: Message, system: Option<Message>)
      returns (accepted: seq<Message>)
      ensures var cands := Walk(chat, None);
              accepted == Chronological(cands[..AcceptedCount(calculate, maxTokens, cands, prompt, system, 0)])
    {
      var rest := chat;
      ghost var cands := Walk(chat, None);
      accepted := [];
      var held: Option<Message> := None;
      ghost var taken := 0;
      var stop := false;
      while rest != [] && !stop
        invariant taken <= |cands|
        invariant !stop ==> cands == cands[..taken] + Walk(rest, held)
        invariant accepted == Chronological(cands[..taken])
        invariant forall j :: 0 <= j < taken ==> Fits(calculate, maxTokens, cands, j, prompt, system)
        invariant stop ==> taken < |cands| && !Fits(calculate, maxTokens, cands, taken, prompt, system)
        decreases |rest|
      {
        var m := rest[|rest| - 1];
        rest := rest[..|rest| - 1];
        if IsUser(m) {
          if held.Some? {
            var probe := accepted + [m, held.value, prompt] + SystemSlot(system);
            var tokens := calculate(probe);
            NextCandidate(cands, taken, Pair(m, held.value), Walk(rest, held));
            if tokens <= maxTokens {
              accepted := [m, held.value] + accepted;
              taken := taken + 1;
            } else {
              stop := true;
            }
          }
        } else {
          held := Some(m);
        }
      }
      AcceptedCountIsUnique(calculate, maxTokens, cands, prompt, system, taken);
    }
  }
}
