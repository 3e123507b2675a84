/** The agent loop as an object: it appends to a session, streams events and writes audit records. */
module RunProgram {
  import opened Prelude
  import opened Approval
  import opened ApprovalHooks
  import opened ToolRegistry
  import opened ToolPhase
  import opened ToolLoop
  import opened RunModel
  import opened RunTree
  import opened AgentRun
  import opened SessionTree
  import opened SessionObject

  /** An id source answers with an id that the session does not use yet. */
  type IdSource = set<Id> -> Id

  ghost predicate Reliable(newId: IdSource) {
    forall used :: newId(used) !in used && newId(used) != NoId
  }

  class Runner {
    const config: Config
    const wording: Wording
    const newId: IdSource
    const session: Session
    ghost const base: Tree

    var said: seq<Msg>
    var ids: seq<Id>
    var events: seq<Event>
    var audit: seq<Record>
    var retries: Retries
    var streak: Streak

    /** The session is its state before the run, grown by the run's messages. */
    ghost predicate Kept()
      reads this, session
    {
      && Reliable(newId)
      && AllFresh(base, said, ids, wording)
      && session.View() == Grown(base, said, ids, wording, |said|)
    }

    constructor (config: Config, wording: Wording, newId: IdSource, session: Session)
      requires Reliable(newId)
      ensures Kept() && this.config == config && this.session == session && base == session.View()
      ensures said == [] && events == [] && audit == [] && retries == NoRetries && streak == IDLE
    {
      this.config, this.wording, this.newId, this.session := config, wording, newId, session;
      base := session.View();
      said, ids, events, audit := [], [], [], [];
      retries, streak := NoRetries, IDLE;
    }

    /** `_append`. */
    method Append(m: Msg)
      requires Kept()
      modifies this`said, this`ids, session
      ensures Kept() && said == old(said) + [m]
    {
      var id := newId(session.entries.Keys);
      GrowOnce(base, said, ids, wording, m, id);
      var r := session.Append(EntryOf(m, id, session.leafId, wording));
      said, ids := said + [m], ids + [id];
    }

    /** `_persist_partial_assistant`. */
    method PersistPartial(s: Stream)
      requires Kept()
      modifies this`said, this`ids, session
      ensures Kept() && said == old(said) + Partial(s)
    {
      var text := Joined(s.texts);
      if text != "" {
        Append(AssistantSays(text, [], true));
      }
    }

    /** `_try_compaction`; an engine that fails may leave any tree behind, one that does not leaves it alone. */
    method TryCompaction(result: CompactResult) returns (outcome: Compaction)
      requires Kept()
      modifies this`said, this`ids, session
      ensures Kept() && outcome == CompactionOf(result)
      ensures said == if outcome.Shrunk? then old(said) + [Compacted(outcome.summary, outcome.tokensBefore)] else old(said)
    {
      var id := newId(session.entries.Keys);
      outcome := CompactionOf(result);
      var during := session.View();
      if outcome.Failed? {
        during := *;
      }
      var r := session.TryCompaction(result, during, id);
      if outcome.Shrunk? {
        var m := Compacted(outcome.summary, outcome.tokensBefore);
        GrowOnce(base, said, ids, wording, m, id);
        said, ids := said + [m], ids + [id];
      }
    }

    /** Judges one call: an automatic decision is recorded at once. */
    method ScreenCall(calls: seq<ToolCall>, w: World, n: nat) returns (gated: bool, denied: bool)
      requires n < |calls|
      modifies this`audit
      ensures AsScreened(calls, w, n, gated, denied)
      ensures audit == if gated then old(audit) else old(audit) + [RecordAt(w.setting, calls, w.rulings, n)]
    {
      var e, call := Evaluate(w.setting, calls[n].name), calls[n];
      var screening := Screen(w.setting, call.name);
      gated, denied := screening.Gated?, false;
      if screening.Auto? {
        ScreenedRecord(calls, w, n);
        denied := screening.decision == DENY;
        audit := audit + [Record(e.name, call.id, TierName(e.tier), screening.decision, screening.decidedBy)];
      }
    }

    /** The loop that judges each call, and collects the gated ones. */
    method ScreenCalls(calls: seq<ToolCall>, w: World) returns (denied: set<string>, gated: seq<ToolCall>)
      modifies this`audit
      ensures gated == GatedCalls(w.setting, calls) && DeniedSoFar(calls, w, gated, denied, |calls|, 0)
      ensures var all := AllRecords(w.setting, calls, w.rulings);
              audit == old(audit) + Pick(all, GatedAt(w.setting, calls), false, |all|)
    {
      denied, gated := {}, [];
      ghost var own: seq<Record> := [];
      for n := 0 to |calls|
        invariant ScreenedSoFar(calls, w, n, gated, denied, own) && audit == old(audit) + own
      {
        var asks, refused := ScreenCall(calls, w, n);
        ScreenedMore(calls, w, n, gated, denied, own, asks, refused);
        if asks {
          gated := gated + [calls[n]];
        } else {
          own := own + [RecordAt(w.setting, calls, w.rulings, n)];
        }
        if refused {
          denied := denied + {calls[n].id};
        }
      }
      ScreenedAll(calls, w, gated, denied, own);
    }

    /** Without a hook every gated call is denied; with one, the hook rules and writes its records. */
    method RuleOnGated(calls: seq<ToolCall>, w: World, gated: seq<ToolCall>, screened: set<string>) returns (denied: set<string>)
      requires gated == GatedCalls(w.setting, calls) && DeniedSoFar(calls, w, gated, screened, |calls|, 0)
      modifies this`audit
      ensures DeniedSoFar(calls, w, gated, denied, |calls|, |gated|)
      ensures audit == old(audit) + GatedRecords(w, gated)
    {
      denied := screened;
      for k := 0 to |gated|
        invariant DeniedSoFar(calls, w, gated, denied, |calls|, k)
        invariant audit == old(audit) + GatedRecords(w, gated)[..k]
      {
        ghost var before := denied;
        if RuledOut(w, k) {
          denied := denied + {gated[k].id};
        }
        audit := audit + [GatedRecord(w, gated[k], k)];
        assert forall x :: x in denied <==> x in before || (RuledOut(w, k) && gated[k].id == x);
      }
    }

    /** A tool message in the session and its ToolCallEnd. */
    method Answer(answer: Answer, ghost before: seq<Answer>, ghost said0: seq<Msg>, ghost events0: seq<Event>)
      requires Kept()
      requires said == said0 + Spoken(before) && events == events0 + Finishes(before)
      modifies this`said, this`ids, this`events, session
      ensures Kept()
      ensures said == said0 + Spoken(before + [answer]) && events == events0 + Finishes(before + [answer])
    {
      assert Spoken(before + [answer]) == Spoken(before) + [ToolSays(answer)];
      assert Finishes(before + [answer]) == Finishes(before) + [ToolCallEnd(answer)];
      Append(ToolSays(answer));
      events := events + [ToolCallEnd(answer)];
    }

    /** The refusals first, in call order. */
    method AnswerRefused(calls: seq<ToolCall>, denied: set<string>, ghost all: seq<Answer>, ghost p: nat -> bool)
      requires Kept() && |all| == |calls|
      requires forall i: nat | i < |calls| :: p(i) == (calls[i].id in denied) && (p(i) ==> all[i] == Refusal(calls[i].id))
      modifies this`said, this`ids, this`events, session
      ensures Kept()
      ensures var picked := Pick(all, p, true, |all|);
              said == old(said) + Spoken(picked) && events == old(events) + Finishes(picked)
    {
      for n := 0 to |calls|
        invariant Kept()
        invariant said == old(said) + Spoken(Pick(all, p, true, n)) && events == old(events) + Finishes(Pick(all, p, true, n))
      {
        if calls[n].id in denied {
          Answer(Refusal(calls[n].id), Pick(all, p, true, n), old(said), old(events));
        }
      }
    }

    /** Then the outputs of the calls that were executed, in call order. */
    method AnswerExecuted(calls: seq<ToolCall>, denied: set<string>, outputs: nat -> string, ghost all: seq<Answer>, ghost p: nat -> bool) returns (any: bool)
      requires Kept() && |all| == |calls|
      requires forall i: nat | i < |calls| :: p(i) == (calls[i].id in denied) && (!p(i) ==> all[i] == Output(calls[i].id, outputs(i)))
      modifies this`said, this`ids, this`events, session
      ensures Kept()
      ensures var picked := Pick(all, p, false, |all|);
              said == old(said) + Spoken(picked) && events == old(events) + Finishes(picked)
      ensures any <==> exists i: nat | i < |calls| :: !p(i)
    {
      any := false;
      for n := 0 to |calls|
        invariant Kept()
        invariant said == old(said) + Spoken(Pick(all, p, false, n)) && events == old(events) + Finishes(Pick(all, p, false, n))
        invariant any <==> exists i: nat | i < n :: !p(i)
      {
        if calls[n].id !in denied {
          any := true;
          Answer(Output(calls[n].id, outputs(n)), Pick(all, p, false, n), old(said), old(events));
        }
      }
    }

    /** All answers of a turn; returns whether any call was executed. */
    method AnswerAll(calls: seq<ToolCall>, denied: set<string>, outputs: nat -> string, ghost blocked: nat -> bool) returns (any: bool)
      requires Kept()
      requires forall i: nat | i < |calls| :: RefusedAt(calls, blocked)(i) == (calls[i].id in denied)
      modifies this`said, this`ids, this`events, session
      ensures Kept() && any == AnyExecuted(calls, blocked)
      ensures said == old(said) + Spoken(Answers(calls, blocked, outputs))
      ensures events == old(events) + Finishes(Answers(calls, blocked, outputs))
    {
      ghost var all, p := AllAnswers(calls, blocked, outputs), RefusedAt(calls, blocked);
      assert forall i: nat | i < |calls| :: all[i] == if p(i) then Refusal(calls[i].id) else Output(calls[i].id, outputs(i));
      AnswerRefused(calls, denied, all, p);
      any := AnswerExecuted(calls, denied, outputs, all, p);
      SpokenConcat(old(said), old(events), Pick(all, p, true, |all|), Pick(all, p, false, |all|));
    }

    /** The starts, the screening, and the requests for the gated calls. */
    method OpenPhase(calls: seq<ToolCall>, w: World) returns (screened: set<string>, gated: seq<ToolCall>)
      modifies this`events, this`audit
      ensures gated == GatedCalls(w.setting, calls) && DeniedSoFar(calls, w, gated, screened, |calls|, 0)
      ensures events == old(events) + Starts(calls) + (if w.setting.gate.Some? then Requests(w.setting, gated) else [])
      ensures var all := AllRecords(w.setting, calls, w.rulings);
              audit == old(audit) + Pick(all, GatedAt(w.setting, calls), false, |all|)
    {
      events := events + Starts(calls);
      screened, gated := ScreenCalls(calls, w);
      if w.setting.gate.Some? {
        events := events + Requests(w.setting, gated);
      }
    }

    /** The answers, once it is known what is denied. */
    method ClosePhase(calls: seq<ToolCall>, w: World, denied: set<string>, ghost before: seq<Event>) returns (any: bool)
      requires Kept() && DeniedSoFar(calls, w, GatedCalls(w.setting, calls), denied, |calls|, |GatedCalls(w.setting, calls)|)
      requires events == before + Starts(calls) + (if w.setting.gate.Some? then Requests(w.setting, GatedCalls(w.setting, calls)) else [])
      modifies this`said, this`ids, this`events, session
      ensures Kept() && any == AnyExecuted(calls, Blocking(calls, w))
      ensures said == old(said) + Phase(calls, w).said && events == before + Phase(calls, w).events
    {
      DeniedAreTheRefused(calls, w, denied);
      any := AnswerAll(calls, denied, w.outputs, Blocking(calls, w));
      PhaseEvents(calls, w, before);
    }

    /** The tool phase; returns whether any call was executed. */
    method ToolPhase(calls: seq<ToolCall>, w: World) returns (any: bool)
      requires Kept()
      modifies this`said, this`ids, this`events, this`audit, session
      ensures Kept() && any == AnyExecuted(calls, Blocking(calls, w))
      ensures said == old(said) + Phase(calls, w).said
      ensures events == old(events) + Phase(calls, w).events
      ensures audit == old(audit) + Phase(calls, w).audit
    {
      var screened, gated := OpenPhase(calls, w);
      var denied := RuleOnGated(calls, w, gated, screened);
      any := ClosePhase(calls, w, denied, old(events));
      PhaseAudit(calls, w, old(audit));
    }

    /** The loop over a hook's decisions. */
    method DenyRuled(calls: seq<ToolCall>, ghost w: World, gated: seq<ToolCall>, screened: set<string>, decisions: seq<string>) returns (denied: set<string>)
      requires gated == GatedCalls(w.setting, calls) && DeniedSoFar(calls, w, gated, screened, |calls|, 0)
      requires |decisions| == |gated| && forall k: nat | k < |gated| :: decisions[k] == GatedRuling(w, k).decision
      ensures DeniedSoFar(calls, w, gated, denied, |calls|, |gated|)
    {
      denied := screened;
      for k := 0 to |gated|
        invariant DeniedSoFar(calls, w, gated, denied, |calls|, k)
      {
        ghost var before := denied;
        if decisions[k] == DENY {
          denied := denied + {gated[k].id};
        }
        assert forall x :: x in denied <==> x in before || (RuledOut(w, k) && gated[k].id == x);
      }
    }

    /**
     The tool phase with the web hook in it. Session and events come out as specified for the
     rulings that the replies of the windows amount to; run and hook write the audit log between them.
     */
    method WebPhase(hook: WebToolApprovalHook, conversation: string, calls: seq<ToolCall>, s: Setting,
                    windows: seq<seq<Reply<string>>>, outputs: nat -> string) returns (any: bool)
      requires Kept() && s.gate.Some? && |windows| == |GatedCalls(s, calls)|
      modifies this`said, this`ids, this`events, this`audit, session, hook, hook.table
      ensures var w := WebWorld(conversation, s, calls, windows, outputs);
              && Kept() && any == AnyExecuted(calls, Blocking(calls, w))
              && said == old(said) + Phase(calls, w).said && events == old(events) + Phase(calls, w).events
      ensures Shared(old(audit), audit, old(hook.audit), hook.audit, Phase(calls, WebWorld(conversation, s, calls, windows, outputs)).audit)
      ensures var asked := HookCalls(s, GatedCalls(s, calls));
              hook.table.pending == Heard(old(hook.table.pending), UpTo(windows, |windows|)) - WebKeys(conversation, asked, |asked|)
    {
      var w := WebWorld(conversation, s, calls, windows, outputs);
      var screened, gated := OpenPhase(calls, w);
      var decisions := hook.BeforeToolExecution(conversation, HookCalls(s, gated), TierName(Tier.Approval), windows);
      var denied := DenyRuled(calls, w, gated, screened, decisions);
      any := ClosePhase(calls, w, denied, old(events));
      WebHookFits(conversation, s, calls, windows, outputs);
      AuditIsShared(calls, w);
    }

    /** And with the Feishu hook in it. */
    method FeishuPhase(hook: FeishuToolApprovalHook, conversation: string, calls: seq<ToolCall>, s: Setting,
                       waits: seq<FeishuWait>, outputs: nat -> string) returns (any: bool)
      requires Kept() && s.gate.Some? && |waits| == |GatedCalls(s, calls)|
      modifies this`said, this`ids, this`events, this`audit, session, hook, hook.table
      ensures var w := FeishuWorld(conversation, s, calls, waits, outputs);
              && Kept() && any == AnyExecuted(calls, Blocking(calls, w))
              && said == old(said) + Phase(calls, w).said && events == old(events) + Phase(calls, w).events
      ensures Shared(old(audit), audit, old(hook.audit), hook.audit, Phase(calls, FeishuWorld(conversation, s, calls, waits, outputs)).audit)
      ensures var asked := HookCalls(s, GatedCalls(s, calls));
              hook.table.pending == Heard(old(hook.table.pending), AllUpTo(waits, |waits|)) - FeishuKeys(conversation, asked, |asked|)
    {
      var w := FeishuWorld(conversation, s, calls, waits, outputs);
      var screened, gated := OpenPhase(calls, w);
      var decisions := hook.BeforeToolExecution(conversation, HookCalls(s, gated), TierName(Tier.Approval), waits);
      var denied := DenyRuled(calls, w, gated, screened, decisions);
      any := ClosePhase(calls, w, denied, old(events));
      FeishuHookFits(conversation, s, calls, waits, outputs);
      AuditIsShared(calls, w);
    }

    /** `p` has been added since the given state. */
    twostate predicate Grew(p: Piece)
      reads this
    {
      said == old(said) + p.said && events == old(events) + p.events && audit == old(audit) + p.audit
    }

    /** The streamed texts. */
    method StreamTexts(s: Stream) returns (text: string)
      modifies this`events
      ensures text == Joined(s.texts) && events == old(events) + Chunks(s.texts)
    {
      text := "";
      for i := 0 to |s.texts|
        invariant text == Joined(s.texts[..i]) && events == old(events) + Chunks(s.texts[..i])
      {
        assert s.texts[..i+1][..i] == s.texts[..i];
        text := text + s.texts[i];
        events := events + [TextChunk(s.texts[i])];
      }
      assert s.texts[..|s.texts|] == s.texts;
    }

    /** Whether the run's state is `o` applied to the state before. */
    twostate predicate Took(o: Outcome)
      reads this
    {
      Grew(o.piece) && Memory(retries, streak) == o.memory
    }

    /** A stream without tool calls: nudge the model on, or finish. */
    method PlainReply(s: Stream) returns (end: Option<string>)
      requires Kept()
      modifies this`said, this`ids, this`events, this`retries, session
      ensures Kept()
      ensures var o := PlainTurn(config, Memory(old(retries), streak), s); Took(o) && end == o.end
    {
      var text := StreamTexts(s);
      var k := config.classify(text);
      if k != Fine && LimitFor(config, k) > 0 && CountFor(retries, k) < LimitFor(config, k) {
        retries := CountUp(retries, k);
        Append(AssistantSays(text, [], false));
        Append(Nudge(k));
        return None;
      }
      Append(AssistantSays(text, [], false));
      events := events + [Done(text)];
      return Some("done");
    }

    /** The request and the answers to it, behind the streamed texts. */
    method RequestAndRun(s: Stream, calls: seq<ToolCall>, w: World) returns (any: bool)
      requires Kept()
      modifies this`said, this`ids, this`events, this`audit, session
      ensures Kept() && any == AnyExecuted(calls, Blocking(calls, w))
      ensures Grew(Piece([AssistantSays(Joined(s.texts), calls, false)] + Phase(calls, w).said,
                         Chunks(s.texts) + Phase(calls, w).events, Phase(calls, w).audit))
    {
      var text := StreamTexts(s);
      Append(AssistantSays(text, calls, false));
      any := ToolPhase(calls, w);
      Assoc(old(said), [AssistantSays(text, calls, false)], Phase(calls, w).said);
      Assoc(old(events), Chunks(s.texts), Phase(calls, w).events);
    }

    /** The request goes into the session, unanswered. */
    method RecordRequest(s: Stream, calls: seq<ToolCall>)
      requires Kept()
      modifies this`said, this`ids, this`events, session
      ensures Kept() && said == old(said) + [AssistantSays(Joined(s.texts), calls, false)] && events == old(events) + Chunks(s.texts)
    {
      var text := StreamTexts(s);
      Append(AssistantSays(text, calls, false));
    }

    method StopReply(s: Stream, calls: seq<ToolCall>) returns (end: Option<string>)
      requires Kept()
      modifies this`said, this`ids, this`events, session
      ensures Kept() && end == Some("tool_loop")
      ensures Grew(Piece([AssistantSays(Joined(s.texts), calls, false)], Chunks(s.texts) + [ErrorEvent("tool_loop")], []))
    {
      RecordRequest(s, calls);
      end := GiveUp("tool_loop");
    }

    method WarnReply(s: Stream, calls: seq<ToolCall>, name: string)
      requires Kept()
      modifies this`said, this`ids, this`events, session
      ensures Kept()
      ensures Grew(Piece([AssistantSays(Joined(s.texts), calls, false), Guidance(name)], Chunks(s.texts), []))
    {
      RecordRequest(s, calls);
      Append(Guidance(name));
    }

    /** A stream with tool calls: stop, warn, or run the tool phase. */
    method ToolReply(s: Stream, calls: seq<ToolCall>, w: World) returns (end: Option<string>)
      requires Kept()
      modifies this, session
      ensures Kept()
      ensures var o := ToolTurn(config, Memory(old(retries), old(streak)), s, calls, w); Took(o) && end == o.end
    {
      var (st, action) := Update(streak, TurnOf(calls, w), config.threshold);
      streak := st;
      match action {
        case Terminate =>
          end := StopReply(s, calls);
        case Warn =>
          WarnReply(s, calls, if st.current.Some? then st.current.value else "");
          return None;
        case Proceed =>
          var any := RequestAndRun(s, calls, w);
          if any {
            retries := NoRetries;
          }
          return None;
      }
    }

    method GiveUp(code: string) returns (end: Option<string>)
      modifies this`events
      ensures end == Some(code) && events == old(events) + [ErrorEvent(code)]
    {
      events := events + [ErrorEvent(code)];
      return Some(code);
    }

    /** A stream that broke off: keep what was said, and end the run. */
    method BrokenStream(s: Stream, code: string) returns (end: Option<string>)
      requires Kept()
      modifies this`said, this`ids, this`events, session
      ensures Kept()
      ensures var o := Abandon(Memory(retries, streak), Chunks(s.texts), Partial(s), code); Took(o) && end == o.end
    {
      var text := StreamTexts(s);
      PersistPartial(s);
      end := GiveUp(code);
    }

    /** A stream the model broke off; an overflowing context is compacted and tried again. */
    method FailedStream(t: Input, code: string, result: CompactResult) returns (end: Option<string>)
      requires Kept() && t.stream.ending == LlmFailure(code, result)
      modifies this`said, this`ids, this`events, session
      ensures Kept()
      ensures var o := AfterStream(config, Memory(retries, streak), t); Took(o) && end == o.end
    {
      var text := StreamTexts(t.stream);
      var why := code;
      if code == "context_overflow" {
        var outcome := TryCompaction(result);
        if outcome.Shrunk? {
          return None;
        }
        if outcome.Failed? {
          why := outcome.code;
        }
      }
      PersistPartial(t.stream);
      end := GiveUp(why);
    }

    /** From the stream to the end of the iteration. */
    method ConsumeStream(t: Input) returns (end: Option<string>)
      requires Kept()
      modifies this, session
      ensures Kept()
      ensures var o := AfterStream(config, Memory(old(retries), old(streak)), t); Took(o) && end == o.end
    {
      match t.stream.ending {
        case Complete(calls) =>
          if calls == [] {
            end := PlainReply(t.stream);
          } else {
            end := ToolReply(t.stream, calls, t.world);
          }
        case StreamTimeout =>
          end := BrokenStream(t.stream, "timeout");
        case StreamAbort =>
          end := BrokenStream(t.stream, "aborted");
        case LlmFailure(code, result) =>
          end := FailedStream(t, code, result);
      }
    }

    /** Ends the run before anything was streamed. */
    method Quit(code: string) returns (end: Option<string>)
      modifies this`events
      ensures var o := Abandon(Memory(retries, streak), [], [], code); Took(o) && end == o.end
    {
      end := GiveUp(code);
    }

    /** Behind the compaction: the time left, then the stream. */
    method Proceed(t: Input) returns (end: Option<string>)
      requires Kept()
      modifies this, session
      ensures Kept()
      ensures var m := Memory(old(retries), old(streak));
              var o := if t.noTimeLeft then Abandon(m, [], [], "timeout") else AfterStream(config, m, t);
              Took(o) && end == o.end
    {
      if t.noTimeLeft {
        end := Quit("timeout");
      } else {
        end := ConsumeStream(t);
      }
    }

    /** Behind the two checks: a context over budget is compacted first. */
    method Trimmed(t: Input) returns (end: Option<string>)
      requires Kept() && !t.timedOut && !t.aborted
      modifies this, session
      ensures Kept()
      ensures var o := Iteration(config, Memory(old(retries), old(streak)), t); Took(o) && end == o.end
    {
      if t.pretrim.Some? {
        var outcome := TryCompaction(t.pretrim.value);
        if outcome.Failed? {
          end := Quit(outcome.code);
          return;
        }
        if outcome.Shrunk? {
          return None;
        }
      }
      end := Proceed(t);
    }

    /** One pass of the loop; `None` goes on. */
    method Iterate(t: Input) returns (end: Option<string>)
      requires Kept()
      modifies this, session
      ensures Kept()
      ensures var o := Iteration(config, Memory(old(retries), old(streak)), t); Took(o) && end == o.end
    {
      if t.timedOut {
        end := Quit("timeout");
      } else if t.aborted {
        end := Quit("aborted");
      } else {
        end := Trimmed(t);
      }
    }

    /**
     `run_agent_stream`. Attachments for a model that cannot see images end the run before anything
     is said, and the hooks are told "done" although an error was emitted.
     */
    method RunStream(text: string, attachments: seq<Block>, seesImages: bool, inputs: seq<Input>) returns (terminatedBy: string)
      requires Kept() && said == [] && events == [] && audit == [] && retries == NoRetries && streak == IDLE
      requires Bound(config) <= |inputs|
      modifies this, session
      ensures Kept()
      ensures attachments != [] && !seesImages ==>
                terminatedBy == "done" && said == [] && events == [ErrorEvent("vision_not_support")] && audit == []
      ensures attachments == [] || seesImages ==>
                var p := WholeRun(config, UserContent(text, attachments), inputs); At(p) && p.end == Some(terminatedBy)
    {
      if attachments != [] && !seesImages {
        events := events + [ErrorEvent("vision_not_support")];
        return "done";
      }
      var user := UserContent(text, attachments);
      Append(UserSays(user));
      var end, n := Loop(user, inputs);
      if end.Some? {
        EndsEarly(config, user, inputs, n);
        return end.value;
      }
      RunsOut(config, user, inputs);
      events := events + [ErrorEvent(OUT_OF_ITERATIONS)];
      return OUT_OF_ITERATIONS;
    }

    /** One pass of the loop moves the run from after `n` iterations to after `n + 1`. */
    method Advance(user: Content, inputs: seq<Input>, n: nat) returns (end: Option<string>)
      requires Kept() && n < |inputs| && Stands(user, inputs, n, None)
      modifies this, session
      ensures Kept() && Stands(user, inputs, n + 1, end)
    {
      ghost var p := RunAfter(StepOf(config), user, inputs, n);
      end := Iterate(inputs[n]);
      ghost var o := StepOf(config)(p.memory, inputs[n]);
      OneMore(StepOf(config), user, inputs, n, p, o);
    }

    /** The loop: it stops after the iteration that ends the run, or when the iterations are used up. */
    method Loop(user: Content, inputs: seq<Input>) returns (end: Option<string>, n: nat)
      requires Kept() && Bound(config) <= |inputs| && Stands(user, inputs, 0, None)
      modifies this, session
      ensures Kept() && n <= Bound(config) && Stands(user, inputs, n, end) && (end.None? ==> n == Bound(config))
    {
      n, end := 0, None;
      while n < config.maxIterations && end.None?
        invariant n <= Bound(config) && Kept() && Stands(user, inputs, n, end)
      {
        end := Advance(user, inputs, n);
        n := n + 1;
      }
    }

    /** The run stands after its first `n` iterations, ended or not. */
    ghost predicate Stands(user: Content, inputs: seq<Input>, n: nat, end: Option<string>)
      requires n <= |inputs|
      reads this
    {
      At(RunAfter(StepOf(config), user, inputs, n)) && RunAfter(StepOf(config), user, inputs, n).end == end
    }

    /** The run stands at `p`. */
    predicate At(p: Progress)
      reads this
    {
      Piece(said, events, audit) == p.piece && Memory(retries, streak) == p.memory
    }
  }

  lemma EndsEarly(c: Config, user: Content, inputs: seq<Input>, n: nat)
    requires n <= Bound(c) <= |inputs| && RunAfter(StepOf(c), user, inputs, n).end.Some?
    ensures WholeRun(c, user, inputs) == RunAfter(StepOf(c), user, inputs, n)
  {
    EndedStays(StepOf(c), user, inputs, n, Bound(c));
  }

  function Exhausted(p: Progress): Progress {
    Progress(Piece(p.piece.said, p.piece.events + [ErrorEvent(OUT_OF_ITERATIONS)], p.piece.audit), p.memory, Some(OUT_OF_ITERATIONS))
  }

  lemma RunsOut(c: Config, user: Content, inputs: seq<Input>)
    requires Bound(c) <= |inputs| && RunAfter(StepOf(c), user, inputs, Bound(c)).end.None?
    ensures WholeRun(c, user, inputs) == Exhausted(RunAfter(StepOf(c), user, inputs, Bound(c)))
  {
    var p := RunAfter(StepOf(c), user, inputs, Bound(c));
    assert p.piece.said + [] == p.piece.said && p.piece.audit + [] == p.piece.audit;
  }

  lemma OneMore(step: Step, user: Content, inputs: seq<Input>, n: nat, p: Progress, o: Outcome)
    requires n < |inputs| && p == RunAfter(step, user, inputs, n) && p.end.None? && o == step(p.memory, inputs[n])
    ensures RunAfter(step, user, inputs, n + 1) == Progress(Added(p.piece, o.piece), o.memory, o.end)
  {
  }

  lemma {:induction false} EndedStays(step: Step, user: Content, inputs: seq<Input>, n: nat, k: nat)
    requires n <= k <= |inputs| && RunAfter(step, user, inputs, n).end.Some?
    ensures RunAfter(step, user, inputs, k) == RunAfter(step, user, inputs, n)
  {
    if n < k {
      EndedStays(step, user, inputs, n, k - 1);
    }
  }

  /** The ids screening denies among the first `n` calls. */
  function ScreenedIds(s: Setting, calls: seq<ToolCall>, n: nat): set<string>
    requires n <= |calls|
  {
    if n == 0 then {} else ScreenedIds(s, calls, n - 1) + if ScreenedOut(s, calls[n-1]) then {calls[n-1].id} else {}
  }

  /** What the loop over the calls has gathered after the first `n`. */
  ghost predicate ScreenedSoFar(calls: seq<ToolCall>, w: World, n: nat, gated: seq<ToolCall>, denied: set<string>, own: seq<Record>)
    requires n <= |calls|
  {
    && gated == Pick(calls, GatedAt(w.setting, calls), true, n)
    && denied == ScreenedIds(w.setting, calls, n)
    && own == Pick(AllRecords(w.setting, calls, w.rulings), GatedAt(w.setting, calls), false, n)
  }

  /** Call `n` is gated, or denied at once. */
  predicate AsScreened(calls: seq<ToolCall>, w: World, n: nat, asks: bool, refused: bool)
    requires n < |calls|
  {
    asks == GatedAt(w.setting, calls)(n) && refused == ScreenedOut(w.setting, calls[n])
  }

  lemma ScreenedMore(calls: seq<ToolCall>, w: World, n: nat, gated: seq<ToolCall>, denied: set<string>, own: seq<Record>, asks: bool, refused: bool)
    requires n < |calls| && ScreenedSoFar(calls, w, n, gated, denied, own) && AsScreened(calls, w, n, asks, refused)
    ensures ScreenedSoFar(calls, w, n + 1, if asks then gated + [calls[n]] else gated,
                          if refused then denied + {calls[n].id} else denied,
                          if asks then own else own + [RecordAt(w.setting, calls, w.rulings, n)])
  {
    assert denied + {} == denied;
  }

  lemma {:induction false} ScreenedIdsAre(s: Setting, calls: seq<ToolCall>, n: nat)
    requires n <= |calls|
    ensures forall x :: x in ScreenedIds(s, calls, n) <==> exists i: nat | i < n :: ScreenedOut(s, calls[i]) && calls[i].id == x
  {
    if n > 0 {
      ScreenedIdsAre(s, calls, n - 1);
    }
  }

  lemma ScreenedAll(calls: seq<ToolCall>, w: World, gated: seq<ToolCall>, denied: set<string>, own: seq<Record>)
    requires ScreenedSoFar(calls, w, |calls|, gated, denied, own)
    ensures gated == GatedCalls(w.setting, calls) && DeniedSoFar(calls, w, gated, denied, |calls|, 0)
    ensures var all := AllRecords(w.setting, calls, w.rulings);
            own == Pick(all, GatedAt(w.setting, calls), false, |all|)
  {
    ScreenedIdsAre(w.setting, calls, |calls|);
  }

  lemma ScreenedRecord(calls: seq<ToolCall>, w: World, n: nat)
    requires n < |calls| && Screen(w.setting, calls[n].name).Auto?
    ensures var e, r := Evaluate(w.setting, calls[n].name), Screen(w.setting, calls[n].name);
            AllRecords(w.setting, calls, w.rulings)[n] == Record(e.name, calls[n].id, TierName(e.tier), r.decision, r.decidedBy)
    ensures !GatedAt(w.setting, calls)(n)
  {
  }

  lemma Assoc<T>(a: seq<T>, b: seq<T>, c: seq<T>)
    ensures a + b + c == a + (b + c)
  {
  }

  lemma SpokenConcat(said: seq<Msg>, events: seq<Event>, a: seq<Answer>, b: seq<Answer>)
    ensures said + Spoken(a) + Spoken(b) == said + Spoken(a + b)
    ensures events + Finishes(a) + Finishes(b) == events + Finishes(a + b)
  {
    assert Spoken(a + b) == Spoken(a) + Spoken(b);
    assert Finishes(a + b) == Finishes(a) + Finishes(b);
  }

  lemma PhaseAudit(calls: seq<ToolCall>, w: World, audit: seq<Record>)
    ensures var all := AllRecords(w.setting, calls, w.rulings);
            audit + Phase(calls, w).audit
            == audit + Pick(all, GatedAt(w.setting, calls), false, |all|) + GatedRecords(w, GatedCalls(w.setting, calls))
  {
    GatedRecordsArePicked(calls, w);
  }

  lemma PhaseEvents(calls: seq<ToolCall>, w: World, events: seq<Event>)
    ensures events + Phase(calls, w).events
         == events + Starts(calls) + (if w.setting.gate.Some? then Requests(w.setting, GatedCalls(w.setting, calls)) else [])
            + Finishes(Answers(calls, Blocking(calls, w), w.outputs))
  {
  }

  /** The records `all` of a phase lie in two logs: the first part was added to one, the rest to the other. */
  predicate Shared(before: seq<Record>, after: seq<Record>, hookBefore: seq<Record>, hookAfter: seq<Record>, all: seq<Record>) {
    var own := |after| - |before|;
    0 <= own <= |all| && after == before + all[..own] && hookAfter == hookBefore + all[own..]
  }

  lemma AuditIsShared(calls: seq<ToolCall>, w: World)
    ensures var all := AllRecords(w.setting, calls, w.rulings);
            var own := Pick(all, GatedAt(w.setting, calls), false, |all|);
            Phase(calls, w).audit[..|own|] == own && Phase(calls, w).audit[|own|..] == GatedRecords(w, GatedCalls(w.setting, calls))
  {
    GatedRecordsArePicked(calls, w);
  }

  lemma DeniedAreTheRefused(calls: seq<ToolCall>, w: World, denied: set<string>)
    requires DeniedSoFar(calls, w, GatedCalls(w.setting, calls), denied, |calls|, |GatedCalls(w.setting, calls)|)
    ensures forall i: nat | i < |calls| :: RefusedAt(calls, Blocking(calls, w))(i) == (calls[i].id in denied)
  {
    forall i: nat | i < |calls|
      ensures Refused(calls, Blocking(calls, w), i) == (calls[i].id in denied)
    {
      if calls[i].id in denied { DeniedAreRefused(calls, w, denied, i); }
      if Refused(calls, Blocking(calls, w), i) { RefusedAreDenied(calls, w, denied, i); }
    }
  }
}
