/** In-memory chat history with incremental trimming (context/conversation_manager.py). */
module Conversation {
  import opened Prelude

  datatype Role = System | User | Assistant

  datatype Message = Message(role: Role, content: string)

  // -- text ------------------------------------------------------------------------------------------

  predicate IsSpace(c: char) {
    c == ' ' || c == '\t' || c == '\n' || c == '\r'
  }

  function Strip(s: string): (r: string)
    ensures r != [] ==> !IsSpace(r[0]) && !IsSpace(r[|r| - 1])
    decreases |s|
  {
    if s == [] then []
    else if IsSpace(s[0]) then Strip(s[1..])
    else if IsSpace(s[|s| - 1]) then Strip(s[..|s| - 1])
    else s
  }

  // -- trimming --------------------------------------------------------------------------------------

  /** The number of leading system messages that do not count: 0 or 1. */
  function Lead(ms: seq<Message>): nat {
    if ms != [] && ms[0].role == System then 1 else 0
  }

  function LastN(ms: seq<Message>, n: int): seq<Message> {
    if n <= 0 then [] else if |ms| <= n then ms else ms[|ms| - n..]
  }

  /** The leading system message, if any, and the last `max` of the rest. */
  function Trim(ms: seq<Message>, max: int): seq<Message> {
    ms[..Lead(ms)] + LastN(ms[Lead(ms)..], max)
  }

  /** Blank text adds nothing. */
  function Added(ms: seq<Message>, max: int, role: Role, text: string): seq<Message> {
    if Strip(text) == [] then ms else Trim(ms + [Message(role, Strip(text))], max)
  }

  predicate HasUser(ms: seq<Message>) {
    exists i :: 0 <= i < |ms| && ms[i].role == User
  }

  /** `ms` without its last user message. */
  function Popped(ms: seq<Message>): seq<Message> {
    if ms == [] then []
    else if ms[|ms| - 1].role == User then ms[..|ms| - 1]
    else Popped(ms[..|ms| - 1]) + [ms[|ms| - 1]]
  }

  lemma {:induction false} PoppedAt(ms: seq<Message>, i: nat)
    requires i < |ms| && ms[i].role == User && forall k :: i < k < |ms| ==> ms[k].role != User
    ensures Popped(ms) == ms[..i] + ms[i + 1..]
  {
    if i < |ms| - 1 {
      PoppedAt(ms[..|ms| - 1], i);
      assert ms[i + 1..] == ms[..|ms| - 1][i + 1..] + [ms[|ms| - 1]];
      assert ms[..|ms| - 1][..i] == ms[..i];
    }
  }

  lemma {:induction false} PoppedNowhere(ms: seq<Message>)
    requires forall k :: 0 <= k < |ms| ==> ms[k].role != User
    ensures Popped(ms) == ms
  {
    if ms != [] { PoppedNowhere(ms[..|ms| - 1]); }
  }

  /** What is to be removed, and the slice that is left. */
  lemma TrimBySlices(ms: seq<Message>, max: int)
    ensures var offset := Lead(ms);
            var toRemove := |ms| - offset - max;
            if toRemove <= 0 then Trim(ms, max) == ms
            else
              var from := if offset + toRemove <= |ms| then offset + toRemove else |ms|;
              Trim(ms, max) == ms[..offset] + ms[from..]
  {
    var rest := ms[Lead(ms)..];
    if |ms| - Lead(ms) > max && max > 0 {
      assert rest[|rest| - max..] == ms[|ms| - max..];
    }
  }

  class ConversationManager {
    const max: int
    /** Empty when there is no prompt. */
    const systemPrompt: string
    var messages: seq<Message>

    constructor (max: int, systemPrompt: string)
      ensures this.max == max && this.systemPrompt == systemPrompt && messages == Prompt(systemPrompt)
    {
      this.max, this.systemPrompt := max, systemPrompt;
      messages := if systemPrompt != "" then [Message(System, systemPrompt)] else [];
    }

    method AddUser(text: string)
      modifies this
      ensures messages == Added(old(messages), max, User, text)
    {
      if Strip(text) == [] { return; }
      messages := messages + [Message(User, Strip(text))];
      AutoTrim();
    }

    method AddAssistant(text: string)
      modifies this
      ensures messages == Added(old(messages), max, Assistant, text)
    {
      if Strip(text) == [] { return; }
      messages := messages + [Message(Assistant, Strip(text))];
      AutoTrim();
    }

    method AddSystem(text: string)
      modifies this
      ensures messages == Added(old(messages), max, System, text)
    {
      if Strip(text) == [] { return; }
      messages := messages + [Message(System, Strip(text))];
      AutoTrim();
    }

    /** Search from the end; the message found is removed wherever it stands. */
    method PopLastUser() returns (removed: Option<Message>)
      modifies this
      ensures messages == Popped(old(messages))
      ensures removed.Some? <==> HasUser(old(messages))
      ensures removed.Some? ==>
                exists k :: 0 <= k < |old(messages)| && removed.value == old(messages)[k] &&
                  removed.value.role == User &&
                            (forall l :: k < l < |old(messages)| ==> old(messages)[l].role != User) &&
                            messages == old(messages)[..k] + old(messages)[k + 1..]
    {
      var i := |messages| - 1;
      while i >= 0
        invariant -1 <= i < |messages| && messages == old(messages)
        invariant forall k :: i < k < |messages| ==> messages[k].role != User
      {
        if messages[i].role == User {
          PoppedAt(messages, i);
          removed := Some(messages[i]);
          messages := messages[..i] + messages[i + 1..];
          return;
        }
        i := i - 1;
      }
      PoppedNowhere(messages);
      removed := None;
    }

    method Reset(keepSystemPrompt: bool)
      modifies this
      ensures messages == if keepSystemPrompt then Prompt(systemPrompt) else []
    {
      if keepSystemPrompt && systemPrompt != "" {
        messages := [Message(System, systemPrompt)];
      } else {
        messages := [];
      }
    }

    /** Drop the oldest messages beyond the maximum; slices past the end are empty. */
    method AutoTrim()
      modifies this
      ensures messages == Trim(old(messages), max)
    {
      TrimBySlices(messages, max);
      hide Trim, LastN;
      var offset := if |messages| > 0 && messages[0].role == System then 1 else 0;
      var count := |messages| - offset;
      if count > max {
        var toRemove := count - max;
        var from := if offset + toRemove <= |messages| then offset + toRemove else |messages|;
        if offset == 1 {
          messages := [messages[0]] + messages[from..];
        } else {
          messages := messages[from..];
        }
      }
    }
  }

  function Prompt(systemPrompt: string): seq<Message> {
    if systemPrompt != "" then [Message(System, systemPrompt)] else []
  }

  // -- incremental trimming against the whole history ------------------------------------------------

  /**
    Trimming after one more message agrees with trimming the whole history exactly when trimming so far leaves the
    same kind of head: no later system message has moved, or now moves, to the front.
   */
  lemma TrimAgreesIff(h: seq<Message>, m: Message, max: int)
    ensures Trim(Trim(h, max) + [m], max) == Trim(h + [m], max) <==> Lead(Trim(h, max) + [m]) == Lead(h + [m])
  {
    var t := Trim(h, max);
    if h == [] {
      assert t == [] && t + [m] == h + [m];
    } else {
      assert Lead(h + [m]) == Lead(h);
      if Lead(h) == 1 {
        assert t[..1] == h[..1] && (h + [m])[1..] == h[1..] + [m] && (t + [m])[1..] == t[1..] + [m];
        assert t[1..] == LastN(h[1..], max);
        LastNAbsorbs(h[1..], m, max);
        assert (t + [m])[..1] == (h + [m])[..1];
      } else {
        assert h[0..] == h && (h + [m])[0..] == h + [m] && t == LastN(h, max);
        if Lead(t + [m]) == 0 {
          assert (t + [m])[0..] == t + [m];
          LastNAbsorbs(h, m, max);
        } else {
          assert |Trim(t + [m], max)| == 1 + |LastN((t + [m])[1..], max)|;
          assert |Trim(h + [m], max)| == |LastN(h + [m], max)|;
          assert t != [] ==> |t| <= max;
        }
      }
    }
  }

  lemma LastNAbsorbs(h: seq<Message>, m: Message, n: int)
    ensures LastN(LastN(h, n) + [m], n) == LastN(h + [m], n)
  {
  }

  datatype Op =
    | Say(role: Role, text: string)
    | Pop
    | Clear(keepSystemPrompt: bool)

  function Step(ms: seq<Message>, max: int, systemPrompt: string, op: Op): seq<Message> {
    match op
    case Say(role, text) => Added(ms, max, role, text)
    case Pop => Popped(ms)
    case Clear(keep) => if keep then Prompt(systemPrompt) else []
  }

  function Run(max: int, systemPrompt: string, ops: seq<Op>): seq<Message> {
    if ops == [] then Prompt(systemPrompt)
    else Step(Run(max, systemPrompt, ops[..|ops| - 1]), max, systemPrompt, ops[|ops| - 1])
  }

  /** Everything ever said, untrimmed, after the prompt. */
  function Said(systemPrompt: string, ops: seq<Op>): seq<Message> {
    if ops == [] then Prompt(systemPrompt)
    else
      var op := ops[|ops| - 1];
      Said(systemPrompt, ops[..|ops| - 1]) +
      (if op.Say? && Strip(op.text) != [] then [Message(op.role, Strip(op.text))] else [])
  }

  predicate AllSay(ops: seq<Op>) {
    forall op :: op in ops ==> op.Say?
  }

  /** A system message after the first one has come to stand where trimming the whole history cuts. */
  predicate Promoted(h: seq<Message>, max: int) {
    exists i :: 1 <= i < |h| && i < |h| - max && h[i].role == System
  }

  /** Nothing said, a system message in front, or no later one ever reached by the cut. */
  predicate KeepsItsHead(h: seq<Message>, max: int) {
    h == [] || h[0].role == System || !Promoted(h, max)
  }

  /** What step-by-step trimming has come to: the trimmed history, or a promoted head and as many messages as fit. */
  ghost predicate TrimmedSoFar(h: seq<Message>, t: seq<Message>, max: int) {
    if KeepsItsHead(h, max) then t == Trim(h, max)
    else Lead(t) == 1 && |t| == 1 + (if max < 0 then 0 else max)
  }

  lemma OneMoreTrim(h: seq<Message>, t: seq<Message>, m: Message, max: int)
    requires TrimmedSoFar(h, t, max)
    ensures TrimmedSoFar(h + [m], Trim(t + [m], max), max)
  {
    var next := h + [m];
    if KeepsItsHead(h, max) {
      TrimAgreesIff(h, m, max);
      HeadAfterOneMore(h, m, max);
    } else {
      var i :| 1 <= i < |h| && i < |h| - max && h[i].role == System;
      assert next[i].role == System;
      assert (t + [m])[1..] == t[1..] + [m] && (t + [m])[0] == t[0];
    }
  }

  /** Where the cut goes when one more message follows `h`. */
  function NextCut(h: seq<Message>, max: int): int {
    if max <= 0 then |h| else |h| - max
  }

  lemma PromotedAtTheCut(h: seq<Message>, m: Message, max: int)
    requires h != [] && !Promoted(h, max)
    ensures Promoted(h + [m], max) <==> NextCut(h, max) >= 1 && (h + [m])[NextCut(h, max)].role == System
  {
    var next, cut := h + [m], NextCut(h, max);
    if cut >= 1 && next[cut].role == System {
      assert 1 <= cut < |next| && cut < |next| - max;
    }
    if Promoted(next, max) {
      var i :| 1 <= i < |next| && i < |next| - max && next[i].role == System;
      assert i < |h| ==> h[i].role == System;
    }
  }

  /** The next message keeps the head exactly when the trimmed history and the whole one still agree about it. */
  lemma HeadAfterOneMore(h: seq<Message>, m: Message, max: int)
    requires KeepsItsHead(h, max)
    ensures KeepsItsHead(h + [m], max) <==> Lead(Trim(h, max) + [m]) == Lead(h + [m])
    ensures !KeepsItsHead(h + [m], max) ==>
              Lead(Trim(h, max) + [m]) == 1 && |Trim(Trim(h, max) + [m], max)| == 1 + (if max < 0 then 0 else max)
  {
    var t := Trim(h, max);
    assert (h + [m])[0] == if h == [] then m else h[0];
    if h != [] && h[0].role != System {
      PromotedAtTheCut(h, m, max);
      hide Promoted;
      assert h[0..] == h && t == LastN(h, max);
      if max <= 0 {
        assert t == [] && t + [m] == [m];
      } else {
        assert t[0] == h[if NextCut(h, max) >= 1 then NextCut(h, max) else 0];
        assert (t + [m])[0] == t[0] && (t + [m])[1..] == t[1..] + [m];
      }
    } else if h != [] {
      assert t[0] == h[0];
    }
  }

  lemma {:induction false} RunIsTrimmedSoFar(max: int, systemPrompt: string, ops: seq<Op>)
    requires AllSay(ops)
    ensures TrimmedSoFar(Said(systemPrompt, ops), Run(max, systemPrompt, ops), max)
  {
    if ops == [] {
      assert Trim(Prompt(systemPrompt), max) == Prompt(systemPrompt);
    } else {
      var front, op := ops[..|ops| - 1], ops[|ops| - 1];
      RunIsTrimmedSoFar(max, systemPrompt, front);
      assert op in ops;
      var said := Said(systemPrompt, front);
      if Strip(op.text) == [] {
        assert said + [] == said;
      } else {
        OneMoreTrim(said, Run(max, systemPrompt, front), Message(op.role, Strip(op.text)), max);
      }
    }
  }

  /**
    Whatever is said, trimming step by step has kept what trimming the whole history keeps, exactly when the history
    starts with a system message or the cut has never reached a later one.
   */
  lemma TrimmingIsExactIff(max: int, systemPrompt: string, ops: seq<Op>)
    requires AllSay(ops)
    ensures Run(max, systemPrompt, ops) == Trim(Said(systemPrompt, ops), max) <==>
            KeepsItsHead(Said(systemPrompt, ops), max)
  {
    RunIsTrimmedSoFar(max, systemPrompt, ops);
    var h := Said(systemPrompt, ops);
    if !KeepsItsHead(h, max) {
      assert h[0..] == h && Trim(h, max) == LastN(h, max);
    }
  }

  /** With a prompt, or when only users and assistants speak, trimming step by step is always exact. */
  lemma TrimmingIsExact(max: int, systemPrompt: string, ops: seq<Op>)
    requires AllSay(ops) && forall op :: op in ops ==> systemPrompt != "" || op.role != System
    ensures Run(max, systemPrompt, ops) == Trim(Said(systemPrompt, ops), max)
  {
    SaidStartsOrSpeaks(systemPrompt, ops);
    TrimmingIsExactIff(max, systemPrompt, ops);
  }

  lemma {:induction false} SaidStartsOrSpeaks(systemPrompt: string, ops: seq<Op>)
    requires AllSay(ops) && forall op :: op in ops ==> systemPrompt != "" || op.role != System
    ensures if systemPrompt != "" then Lead(Said(systemPrompt, ops)) == 1
            else forall m :: m in Said(systemPrompt, ops) ==> m.role != System
  {
    if ops != [] {
      SaidStartsOrSpeaks(systemPrompt, ops[..|ops| - 1]);
      assert ops[|ops| - 1] in ops;
    }
  }

  /**
    A leading system message, prompt or promoted, stays in front whatever is said or popped; only a reset removes
    it.
   */
  lemma {:induction false} HeadStays(max: int, systemPrompt: string, ops: seq<Op>, later: seq<Op>)
    requires Lead(Run(max, systemPrompt, ops)) == 1
    requires forall op :: op in later ==> !op.Clear?
    ensures Lead(Run(max, systemPrompt, ops + later)) == 1
    ensures Run(max, systemPrompt, ops + later)[0] == Run(max, systemPrompt, ops)[0]
  {
    if later == [] {
      assert ops + later == ops;
    } else {
      var front := later[..|later| - 1];
      HeadStays(max, systemPrompt, ops, front);
      assert (ops + later)[..|ops + later| - 1] == ops + front;
      assert later[|later| - 1] in later;
      hide Step, Prompt;
      StepKeepsHead(Run(max, systemPrompt, ops + front), max, systemPrompt, later[|later| - 1]);
    }
  }

  lemma StepKeepsHead(ms: seq<Message>, max: int, systemPrompt: string, op: Op)
    requires Lead(ms) == 1 && !op.Clear?
    ensures Lead(Step(ms, max, systemPrompt, op)) == 1 && Step(ms, max, systemPrompt, op)[0] == ms[0]
  {
    PoppedHead(ms);
    hide Popped, Strip;
  }

  lemma {:induction false} PoppedHead(ms: seq<Message>)
    requires Lead(ms) == 1
    ensures Popped(ms) != [] && Popped(ms)[0] == ms[0]
  {
    if |ms| > 1 { PoppedHead(ms[..|ms| - 1]); }
  }

  /** After a reset that keeps the prompt, everything goes as if nothing had been said before. */
  lemma {:induction false} ResetStartsOver(max: int, systemPrompt: string, ops: seq<Op>, later: seq<Op>)
    ensures Run(max, systemPrompt, ops + [Clear(true)] + later) == Run(max, systemPrompt, later)
  {
    var base := ops + [Clear(true)];
    RunOn(max, systemPrompt, ops, Clear(true));
    RunOfNothing(max, systemPrompt);
    assert Run(max, systemPrompt, base) == Prompt(systemPrompt);
    hide Run, Step, Prompt;
    if later == [] {
      assert base + later == base;
    } else {
      var front, op := later[..|later| - 1], later[|later| - 1];
      assert base + later == (base + front) + [op] && later == front + [op];
      ResetStartsOver(max, systemPrompt, ops, front);
      RunOn(max, systemPrompt, base + front, op);
      RunOn(max, systemPrompt, front, op);
    }
  }

  lemma RunOfNothing(max: int, systemPrompt: string)
    ensures Run(max, systemPrompt, []) == Prompt(systemPrompt)
  {
  }

  lemma RunOn(max: int, systemPrompt: string, ops: seq<Op>, op: Op)
    ensures Run(max, systemPrompt, ops + [op]) == Step(Run(max, systemPrompt, ops), max, systemPrompt, op)
  {
    assert (ops + [op])[..|ops|] == ops;
  }

  /** A maximum of one: a system message added second takes the head and stays there, beside the last message. */
  lemma SystemAddIsPromoted(u: string, s: string, v: string)
    requires Strip(u) != [] && Strip(s) != [] && Strip(v) != []
    ensures var a, b, c := Message(User, Strip(u)), Message(System, Strip(s)), Message(User, Strip(v));
            && Added(Added(Added([], 1, User, u), 1, System, s), 1, User, v) == [b, c]
            && Trim([a, b, c], 1) == [c]
  {
    hide Strip;
    OneTrim(Message(User, Strip(u)), Message(System, Strip(s)), Message(User, Strip(v)));
  }

  lemma OneTrim(a: Message, b: Message, c: Message)
    requires a.role == User && b.role == System
    ensures Trim([] + [a], 1) == [a] && Trim([a] + [b], 1) == [b] && Trim([b] + [c], 1) == [b, c] &&
            Trim([a, b, c], 1) == [c]
  {
  }

  lemma {:induction false} PoppedTail(ms: seq<Message>)
    ensures |Popped(ms)| <= |ms|
    ensures |Popped(ms)| - Lead(Popped(ms)) <= |ms| - Lead(ms)
    ensures ms != [] && Popped(ms) != [] && Lead(ms) == 1 ==> Lead(Popped(ms)) == 1
    ensures Lead(ms) == 1 ==> Popped(ms) != []
  {
    if ms != [] {
      PoppedTail(ms[..|ms| - 1]);
    }
  }

  /** Whatever is said, popped and reset, at most `max` messages follow a leading system message. */
  lemma {:induction false} HistoryIsBounded(max: int, systemPrompt: string, ops: seq<Op>)
    ensures var ms := Run(max, systemPrompt, ops); |ms| - Lead(ms) <= (if max < 0 then 0 else max)
  {
    if ops != [] {
      var before := Run(max, systemPrompt, ops[..|ops| - 1]);
      HistoryIsBounded(max, systemPrompt, ops[..|ops| - 1]);
      PoppedTail(before);
    }
  }

  /** Popping takes back a user message just added exactly when there was room for it, or never any room at all. */
  lemma PopUndoesAddIff(ms: seq<Message>, max: int, text: string)
    requires Strip(text) != [] && |ms| - Lead(ms) <= (if max < 0 then 0 else max)
    ensures Popped(Added(ms, max, User, text)) == ms <==> |ms| - Lead(ms) < max || max <= 0
  {
    var m := Message(User, Strip(text));
    var whole := ms + [m];
    assert Lead(whole) == Lead(ms) && whole[Lead(ms)..] == ms[Lead(ms)..] + [m];
    if max <= 0 {
      assert Trim(whole, max) == ms;
      assert Popped(ms) == ms;
    } else if |ms| - Lead(ms) < max {
      assert Trim(whole, max) == whole && whole[..|ms|] == ms;
    } else {
      assert |Trim(whole, max)| == |ms| && Trim(whole, max)[|ms| - 1] == m;
    }
  }

  // -- what a message and a trim leave ---------------------------------------------------------------

  predicate AllSpace(s: string) {
    forall i :: 0 <= i < |s| ==> IsSpace(s[i])
  }

  /** What is left stands at `i` up to `j`, with nothing but space around it. */
  predicate StrippedTo(s: string, i: nat, j: nat) {
    && i <= j <= |s| && Strip(s) == s[i..j]
    && (forall k :: 0 <= k < i ==> IsSpace(s[k])) && (forall k :: j <= k < |s| ==> IsSpace(s[k]))
  }

  lemma StrippedInFront(s: string, i: nat, j: nat)
    requires s != [] && IsSpace(s[0]) && StrippedTo(s[1..], i, j)
    ensures StrippedTo(s, i + 1, j + 1)
  {
    hide IsSpace;
    assert Strip(s) == Strip(s[1..]) && s[1..][i..j] == s[i + 1..j + 1];
    assert forall k :: 0 < k < |s| ==> s[k] == s[1..][k - 1];
  }

  lemma StrippedBehind(s: string, i: nat, j: nat)
    requires s != [] && !IsSpace(s[0]) && IsSpace(s[|s| - 1]) && StrippedTo(s[..|s| - 1], i, j)
    ensures StrippedTo(s, i, j)
  {
    hide IsSpace;
    assert Strip(s) == Strip(s[..|s| - 1]) && s[..|s| - 1][i..j] == s[i..j];
    assert forall k :: 0 <= k < |s| - 1 ==> s[k] == s[..|s| - 1][k];
  }

  /** Nothing but space is stripped, and only at the ends. */
  lemma {:induction false} StripsOnlySpace(s: string)
    ensures exists i: nat, j: nat :: StrippedTo(s, i, j)
    decreases |s|
  {
    if s == [] {
      assert StrippedTo(s, 0, 0);
    } else if IsSpace(s[0]) {
      StripsOnlySpace(s[1..]);
      var i: nat, j: nat :| StrippedTo(s[1..], i, j);
      StrippedInFront(s, i, j);
    } else if IsSpace(s[|s| - 1]) {
      StripsOnlySpace(s[..|s| - 1]);
      var i: nat, j: nat :| StrippedTo(s[..|s| - 1], i, j);
      StrippedBehind(s, i, j);
    } else {
      assert s[0..|s|] == s;
      assert StrippedTo(s, 0, |s|);
    }
  }

  /** Nothing is left exactly of nothing but space. */
  lemma BlankIff(s: string)
    ensures Strip(s) == [] <==> AllSpace(s)
  {
    StripsOnlySpace(s);
    var i: nat, j: nat :| StrippedTo(s, i, j);
    var r := Strip(s);
    if r != [] { assert s[i] == r[0] && !IsSpace(r[0]); }
  }

  /** Spaces, tabs, line feeds and carriage returns are space. */
  lemma SpaceIff(c: char)
    ensures IsSpace(c) <==> c in " \t\n\r"
  {
  }

  /** Trimming keeps a leading system message and, of the rest, the latest that fit. */
  lemma TrimKeepsTheLatest(ms: seq<Message>, max: int, k: nat)
    ensures var head := if ms != [] && ms[0].role == System then 1 else 0;
            var fit := if max < 0 then 0 else if max < |ms| - head then max else |ms| - head;
            && |Trim(ms, max)| == head + fit
            && (head == 1 ==> Trim(ms, max)[0] == ms[0])
            && (k < fit ==> Trim(ms, max)[head + fit - 1 - k] == ms[|ms| - 1 - k])
  {
  }

  /** Text that is not blank is the latest message, by its speaker, as long as one message fits. */
  lemma SaidLast(ms: seq<Message>, max: int, role: Role, text: string)
    requires !AllSpace(text) && max > 0
    ensures var after := Added(ms, max, role, text);
            after != [] && after[|after| - 1] == Message(role, Strip(text))
  {
    BlankIff(text);
    TrimKeepsTheLatest(ms + [Message(role, Strip(text))], max, 0);
  }

  lemma BlankSaysNothing(ms: seq<Message>, max: int, role: Role, text: string)
    requires AllSpace(text)
    ensures Added(ms, max, role, text) == ms
  {
    BlankIff(text);
  }

  /** A conversation begins with its prompt, if there is one, or with nothing. */
  lemma BeginsWithThePrompt(max: int, systemPrompt: string)
    ensures systemPrompt == "" ==> Run(max, systemPrompt, []) == []
    ensures systemPrompt != "" ==> Run(max, systemPrompt, []) == [Message(System, systemPrompt)]
    ensures Run(max, systemPrompt, [Clear(false)]) == []
  {
  }
}
