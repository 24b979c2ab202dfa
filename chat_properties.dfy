/** What the `chat` command promises about the ledger it writes, the calls
    it makes to the chat model and the exit code it returns: the loop's
    handling of `:q`, blank lines and failures, consecutive indices with
    user and assistant turns alternating, the +2/+4 advance of a loop turn,
    and the records and exit code of a one-shot run. */
module ChatProperties {
  import opened Wrappers
  import opened JavaText
  import opened Domain
  import opened ChatPromptBuilder
  import opened ChatService
  import opened ChatCommand

  // ------------------------------------------------------ the loop

  /** Whatever follows a line that trims to `:q` is never read. */
  lemma {:induction false} LoopStopsAtQuit(turn: Turner, w: World, data: SessionData,
                                           before: seq<Str>, quit: Str, after: seq<Str>)
    requires Trim(quit) == QUIT
    ensures Loop(turn, w, data, before + [quit] + after) == Loop(turn, w, data, before)
    decreases |before|
  {
    var lines := before + [quit] + after;
    if before == [] {
      assert lines[0] == quit;
    } else {
      assert lines[0] == before[0] && lines[1..] == before[1..] + [quit] + after;
      if Trim(before[0]) == QUIT {
      } else if Trim(before[0]) == [] {
        LoopStopsAtQuit(turn, w, data, before[1..], quit, after);
      } else {
        var t := turn(w, data, before[0]);
        if t.result.Ok? {
          LoopStopsAtQuit(turn, t.world, t.result.value, before[1..], quit, after);
        }
      }
    }
  }

  /** A line that trims to nothing is skipped: it changes nothing. */
  lemma {:induction false} LoopSkipsBlank(turn: Turner, w: World, data: SessionData,
                                          before: seq<Str>, blank: Str, after: seq<Str>)
    requires Trim(blank) == []
    ensures Loop(turn, w, data, before + [blank] + after) == Loop(turn, w, data, before + after)
    decreases |before|
  {
    var lines := before + [blank] + after;
    if before == [] {
      assert lines[0] == blank && lines[1..] == after && before + after == after;
      assert Trim(blank) != QUIT;
    } else {
      assert lines[0] == before[0] && lines[1..] == before[1..] + [blank] + after;
      assert (before + after)[0] == before[0] && (before + after)[1..] == before[1..] + after;
      if Trim(before[0]) == QUIT {
      } else if Trim(before[0]) == [] {
        LoopSkipsBlank(turn, w, data, before[1..], blank, after);
      } else {
        var t := turn(w, data, before[0]);
        if t.result.Ok? {
          LoopSkipsBlank(turn, t.world, t.result.value, before[1..], blank, after);
        }
      }
    }
  }

  /** Whatever every successful turn keeps, the loop keeps. */
  lemma {:induction false} LoopKeeps(turn: Turner, inv: (World, SessionData) -> bool,
                                     w: World, data: SessionData, lines: seq<Str>)
    requires inv(w, data)
    requires forall v: World, d: SessionData, line: Str | inv(v, d) && turn(v, d, line).result.Ok? ::
      inv(turn(v, d, line).world, turn(v, d, line).result.value)
    ensures var p := Loop(turn, w, data, lines);
      p.result.Ok? ==> inv(p.world, p.result.value)
    decreases |lines|
  {
    if lines == [] || Trim(lines[0]) == QUIT {
    } else if Trim(lines[0]) == [] {
      LoopKeeps(turn, inv, w, data, lines[1..]);
    } else {
      var t := turn(w, data, lines[0]);
      if t.result.Ok? {
        LoopKeeps(turn, inv, t.world, t.result.value, lines[1..]);
      }
    }
  }

  // ------------------------------------------------------ consecutive turns

  /** `later` carries on from `d`: the same session, the turns of `d`, then
      turns numbered on from `d.nextIdx` with no gap, a user turn first and
      user and assistant turns alternating, whole exchanges only, and the
      next index just past them. */
  predicate Extends(d: SessionData, later: SessionData) {
    later.meta == d.meta
    && |d.turns| <= |later.turns| && later.turns[..|d.turns|] == d.turns
    && later.nextIdx == d.nextIdx + (|later.turns| - |d.turns|)
    && (|later.turns| - |d.turns|) % 2 == 0
    && forall k | |d.turns| <= k < |later.turns| ::
         later.turns[k].idx == d.nextIdx + (k - |d.turns|)
         && later.turns[k].role == (if (k - |d.turns|) % 2 == 0 then "user" else "assistant")
  }

  /** Carrying on is transitive. */
  lemma ExtendsTrans(a: SessionData, b: SessionData, c: SessionData)
    requires Extends(a, b) && Extends(b, c)
    ensures Extends(a, c)
  {
    var i, j := |a.turns|, |b.turns|;
    assert c.turns[..i] == c.turns[..j][..i];
    forall k | i <= k < |c.turns|
      ensures c.turns[k].idx == a.nextIdx + (k - i)
      ensures c.turns[k].role == (if (k - i) % 2 == 0 then "user" else "assistant")
    {
      if k < j {
        assert c.turns[k] == c.turns[..j][k] == b.turns[k];
      } else {
        assert (k - i) % 2 == (k - j) % 2 by {
          assert k - i == (k - j) + (j - i);
        }
      }
    }
  }

  /** Nothing carried on yet. */
  lemma ExtendsRefl(d: SessionData)
    ensures Extends(d, d)
  {
    assert d.turns[..|d.turns|] == d.turns;
  }

  /** One exchange at the next index carries the session on by two. */
  lemma ExtendsByExchange(d: SessionData, question: Str, answer: Str, hasClient: bool)
    ensures Extends(d, SessionData(d.meta, d.turns + TurnsOfExchange(d.nextIdx, question, answer, hasClient), d.nextIdx + 2))
  {
    var turns := d.turns + TurnsOfExchange(d.nextIdx, question, answer, hasClient);
    assert turns[..|d.turns|] == d.turns;
    assert turns[|d.turns|] == Turn(d.nextIdx, "user", question, None);
    assert turns[|d.turns| + 1] == Turn(d.nextIdx + 1, "assistant", answer, Some(ModelName(hasClient)));
  }

  /** A turn of the loop logs one exchange, or two when a request for code
      gets a reply that fails validation: the next index moves on by 2 or
      by 4, and by 4 exactly when the first reply (the turn at `n + 1`)
      is not structured. */
  lemma TurnedAdvances(o: Config, w: World, data: SessionData, id: Str, line: Str, now: Str)
    ensures var p := Turned(o, w, data, id, line, now);
      p.result.Ok? ==>
        Extends(data, p.result.value)
        && var added := p.result.value.nextIdx - data.nextIdx;
        (added == 2 || added == 4)
        && (o.policy.explains(line) ==> added == 2)
        && (!o.policy.explains(line) ==>
              (added == 4 <==> !o.policy.structured(p.result.value.turns[|data.turns| + 1].msg)))
  {
    var n := data.nextIdx;
    if o.policy.explains(line) {
      var a := Ask(o, w, data.meta.sessionId, n, line, data.turns, now);
      if a.result.Ok? {
        ExtendsByExchange(data, line, a.result.value, o.hasClient);
      }
    } else {
      CodeTurnAdvances(o, w, data, id, line, now);
    }
  }

  /** `handleCodeTurn` carries the session on by 2, or by 4 exactly when
      the first reply is not structured. */
  lemma CodeTurnAdvances(o: Config, w: World, data: SessionData, id: Str, line: Str, now: Str)
    ensures var p := CodeTurn(o, w, data, id, line, now);
      p.result.Ok? ==>
        Extends(data, p.result.value)
        && var added := p.result.value.nextIdx - data.nextIdx;
        (added == 2 || added == 4)
        && (added == 4 <==> !o.policy.structured(p.result.value.turns[|data.turns| + 1].msg))
  {
    var n := data.nextIdx;
    var wrapped := o.policy.wrap(line);
    var a := Ask(o, w, id, n, wrapped, data.turns + [Turn(n, "user", wrapped, None)], now);
    if a.result.Ok? {
      var first := a.result.value;
      var history := data.turns + TurnsOfExchange(n, wrapped, first, o.hasClient);
      var mid := SessionData(data.meta, history, n + 2);
      ExtendsByExchange(data, wrapped, first, o.hasClient);
      assert history[|data.turns| + 1].msg == first;
      if !o.policy.structured(first) {
        var b := Correct(o, a.world, id, n + 2, history, now);
        if b.result.Ok? {
          var second := b.result.value;
          var last := SessionData(data.meta, history + TurnsOfExchange(n + 2, o.policy.correction, second, o.hasClient), n + 4);
          assert CodeTurn(o, w, data, id, line, now).result == Ok(last);
          ExtendsByExchange(mid, o.policy.correction, second, o.hasClient);
          ExtendsTrans(data, mid, last);
          assert last.turns[|data.turns| + 1] == history[|data.turns| + 1];
        }
      }
    }
  }

  // ------------------------------------------------------ the ledger

  /** The ledger of session `id` follows the session data: it loads with
      the same turns and the same next index, and the session is `id`. */
  predicate Synced(w: World, id: Str, d: SessionData) {
    d.meta.sessionId == id && Loaded(w.sessions, id).Ok?
    && Loaded(w.sessions, id).value.turns == d.turns
    && Loaded(w.sessions, id).value.nextIdx == d.nextIdx
  }

  /** After an exchange the ledger loads with the exchange's two turns
      added and the next index past them. */
  lemma AskLoads(o: Config, w: World, id: Str, n: int, question: Str, history: seq<Turn>, now: Str)
    requires Loaded(w.sessions, id).Ok?
    ensures var a := Ask(o, w, id, n, question, history, now);
      var d := Loaded(w.sessions, id).value;
      a.result.Ok? ==>
        Loaded(a.world.sessions, id)
        == Ok(SessionData(d.meta, d.turns + TurnsOfExchange(n, question, a.result.value, o.hasClient), Max(d.nextIdx, n + 2)))
  {
    if !(o.hasClient && o.system.Err?) {
      var reply := Answer(o, w, question, history).0;
      var u := TurnRecord(n, now, "user", question, None);
      var v := TurnRecord(n + 1, now, "assistant", reply, Some(ModelName(o.hasClient)));
      var s1 := w.sessions[id := w.sessions[id] + [u]];
      LoadAfterAppend(w.sessions, id, u);
      LoadAfterAppend(s1, id, v);
      LogExchange(w.sessions, id, n, now, question, reply, o.hasClient);
      var d := Loaded(w.sessions, id).value;
      TwoAppends(d.turns, TurnOf(u), TurnOf(v));
      assert [TurnOf(u), TurnOf(v)] == TurnsOfExchange(n, question, reply, o.hasClient);
    }
  }

  /** A turn of the loop keeps the ledger in step with the session data. */
  lemma TurnedKeepsSync(o: Config, w: World, data: SessionData, id: Str, line: Str, now: Str)
    requires Synced(w, id, data)
    ensures var p := Turned(o, w, data, id, line, now);
      p.result.Ok? ==> Synced(p.world, id, p.result.value)
  {
    var n := data.nextIdx;
    if o.policy.explains(line) {
      AskLoads(o, w, id, n, line, data.turns, now);
    } else {
      var wrapped := o.policy.wrap(line);
      var a := Ask(o, w, id, n, wrapped, data.turns + [Turn(n, "user", wrapped, None)], now);
      AskLoads(o, w, id, n, wrapped, data.turns + [Turn(n, "user", wrapped, None)], now);
      if a.result.Ok? && !o.policy.structured(a.result.value) {
        var history := data.turns + TurnsOfExchange(n, wrapped, a.result.value, o.hasClient);
        AskLoads(o, a.world, id, n + 2, o.policy.correction,
                 history + [Turn(n + 2, "user", o.policy.correction, None)], now);
      }
    }
  }

  /** Through the whole loop the ledger stays in step with the session
      data. */
  lemma ReplKeepsSync(o: Config, w: World, data: SessionData, id: Str, lines: seq<Str>, now: Str)
    requires Synced(w, id, data)
    ensures var p := Repl(o, w, data, id, lines, now);
      p.result.Ok? ==> Synced(p.world, id, p.result.value)
  {
    var turn := ChatTurn(o, id, now);
    var inv := (v: World, d: SessionData) => Synced(v, id, d);
    forall v: World, d: SessionData, line: Str | inv(v, d) && turn(v, d, line).result.Ok?
      ensures inv(turn(v, d, line).world, turn(v, d, line).result.value)
    {
      TurnedKeepsSync(o, v, d, id, line, now);
    }
    LoopKeeps(turn, inv, w, data, lines);
  }

  /** Through the whole loop the turns stay consecutive, alternate between
      user and assistant, and come in whole exchanges. */
  lemma ReplAdvances(o: Config, w: World, data: SessionData, id: Str, lines: seq<Str>, now: Str)
    ensures var p := Repl(o, w, data, id, lines, now);
      p.result.Ok? ==> Extends(data, p.result.value)
  {
    var turn := ChatTurn(o, id, now);
    var inv := (v: World, d: SessionData) => Extends(data, d);
    forall v: World, d: SessionData, line: Str | inv(v, d) && turn(v, d, line).result.Ok?
      ensures inv(turn(v, d, line).world, turn(v, d, line).result.value)
    {
      TurnedAdvances(o, v, d, id, line, now);
      ExtendsTrans(data, d, turn(v, d, line).result.value);
    }
    ExtendsRefl(data);
    LoopKeeps(turn, inv, w, data, lines);
  }

  // ------------------------------------------------------ one-shot runs

  /** After one call the chat model's next answer is the one after. */
  lemma ReplyAfterOne(replies: seq<Str>, message: Str)
    ensures ReplyAt(true, Consumed(replies, 1), 0, message) == ReplyAt(true, replies, 1, message)
  {
  }

  /** An exchange on an existing ledger with a usable configuration
      succeeds with the next answer. */
  lemma AskOk(o: Config, w: World, id: Str, n: int, question: Str, history: seq<Turn>, now: Str)
    requires id in w.sessions && !(o.hasClient && o.system.Err?)
    ensures Ask(o, w, id, n, question, history, now)
         == Asked(Ok(ReplyAt(o.hasClient, w.replies, 0, question)),
                  World(w.sessions[id := w.sessions[id] + Exchange(n, now, question, ReplyAt(o.hasClient, w.replies, 0, question), o.hasClient)],
                        if o.hasClient then Consumed(w.replies, 1) else w.replies,
                        if o.hasClient
                        then w.calls + [o.prompt(history, question)]
                        else w.calls))
  {
  }

  /** A one-shot run that gets its answers logs the question and its reply
      at `n` and `n + 1`, and for a request for code whose first reply
      fails validation also the correction and the second reply at `n + 2`
      and `n + 3`. It exits 1 exactly when that second reply fails too.
      Without a chat model nothing is called. */
  lemma OneShotLedger(o: Config, w: World, data: SessionData, id: Str, message: Str, now: Str)
    requires id in w.sessions && !(o.hasClient && o.system.Err?)
    ensures var f := OneShot(o, w, data, id, message, now);
      var n := data.nextIdx;
      var q := if o.policy.explains(message) then message else o.policy.wrap(message);
      var first := ReplyAt(o.hasClient, w.replies, 0, q);
      var corrected := !o.policy.explains(message) && !o.policy.structured(first);
      var fix := o.policy.correction;
      var second := ReplyAt(o.hasClient, w.replies, 1, fix);
      f.result == Ok(if corrected && !o.policy.structured(second) then 1 else 0)
      && f.world.sessions
         == w.sessions[id := w.sessions[id] + Exchange(n, now, q, first, o.hasClient)
                             + (if corrected then Exchange(n + 2, now, fix, second, o.hasClient) else [])]
      && (!o.hasClient ==> f.world.calls == w.calls && f.world.replies == w.replies)
  {
    var n := data.nextIdx;
    var q := if o.policy.explains(message) then message else o.policy.wrap(message);
    var a := Ask(o, w, id, n, q, data.turns, now);
    var first := ReplyAt(o.hasClient, w.replies, 0, q);
    AskOk(o, w, id, n, q, data.turns, now);
    var corrected := !o.policy.explains(message) && !o.policy.structured(first);
    var s := w.sessions[id] + Exchange(n, now, q, first, o.hasClient);
    if corrected {
      var fix := o.policy.correction;
      var history := data.turns + TurnsOfExchange(n, q, first, o.hasClient) + [Turn(n + 2, "user", fix, None)];
      AskOk(o, a.world, id, n + 2, fix, history, now);
      if o.hasClient {
        ReplyAfterOne(w.replies, fix);
      }
    } else {
      assert s + [] == s;
    }
  }

  /** With a chat model, a one-shot run that gets its answers makes one
      call per exchange: first with the session's history, then, for the
      correction, with the first exchange and the correction added. */
  lemma OneShotCalls(o: Config, w: World, data: SessionData, id: Str, message: Str, now: Str)
    requires id in w.sessions && o.hasClient && o.system.Ok?
    ensures var f := OneShot(o, w, data, id, message, now);
      var n := data.nextIdx;
      var q := if o.policy.explains(message) then message else o.policy.wrap(message);
      var first := ReplyAt(true, w.replies, 0, q);
      var corrected := !o.policy.explains(message) && !o.policy.structured(first);
      var fix := o.policy.correction;
      var prompt := o.prompt(data.turns, q);
      var retry := o.prompt(data.turns + TurnsOfExchange(n, q, first, true) + [Turn(n + 2, "user", fix, None)], fix);
      f.world.calls == w.calls + [prompt] + (if corrected then [retry] else [])
      && f.world.replies == Consumed(w.replies, if corrected then 2 else 1)
  {
    var n := data.nextIdx;
    var q := if o.policy.explains(message) then message else o.policy.wrap(message);
    var a := Ask(o, w, id, n, q, data.turns, now);
    var first := ReplyAt(true, w.replies, 0, q);
    AskOk(o, w, id, n, q, data.turns, now);
    var corrected := !o.policy.explains(message) && !o.policy.structured(first);
    var prompt := o.prompt(data.turns, q);
    if corrected {
      var fix := o.policy.correction;
      var history := data.turns + TurnsOfExchange(n, q, first, true) + [Turn(n + 2, "user", fix, None)];
      AskOk(o, a.world, id, n + 2, fix, history, now);
      ConsumedTwice(w.replies);
    } else {
      assert w.calls + [prompt] + [] == w.calls + [prompt];
    }
  }

  /** Two calls consume two answers. */
  lemma ConsumedTwice(replies: seq<Str>)
    ensures Consumed(Consumed(replies, 1), 1) == Consumed(replies, 2)
  {
  }

  /** A one-shot run fails on a missing ledger before anything is written,
      and, with a chat model but no system prompt, after logging only the
      question, with no call made. */
  lemma OneShotFails(o: Config, w: World, data: SessionData, id: Str, message: Str, now: Str)
    ensures var f := OneShot(o, w, data, id, message, now);
      var q := if o.policy.explains(message) then message else o.policy.wrap(message);
      (id !in w.sessions ==> f == Finished(Err(SessionFile(id)), w))
      && (id in w.sessions && o.hasClient && o.system.Err? ==>
            f == Finished(Err(o.system.error),
                          w.(sessions := w.sessions[id := w.sessions[id] + [TurnRecord(data.nextIdx, now, "user", q, None)]])))
  {
  }

  // ------------------------------------------------------ starting

  /** A new session starts at index 1 with no turns, and its ledger, which
      holds only the meta record, is in step with it; a resumed session is
      the ledger as loaded, and fails as loading fails. */
  lemma StartSynced(w: World, sessionId: Option<Str>, title: Option<Str>, newId: Str, createdAt: Str, cwd: Str)
    ensures var s := Start(w, sessionId, title, newId, createdAt, cwd);
      (NullOrBlank(sessionId) ==>
         s.Ok? && s.value.0 == SessionData(Session(newId, createdAt, cwd, title), [], 1) && s.value.1 == newId
         && s.value.2.sessions[newId] == [MetaRecord(newId, createdAt, cwd, title)]
         && Synced(s.value.2, newId, s.value.0))
      && (!NullOrBlank(sessionId) ==>
            (s.Ok? <==> Loaded(w.sessions, sessionId.value).Ok?)
            && (s.Err? ==> s.error == Loaded(w.sessions, sessionId.value).error)
            && (s.Ok? ==> s.value == (Loaded(w.sessions, sessionId.value).value, sessionId.value, w))
            && (s.Ok? && s.value.0.meta.sessionId == sessionId.value ==> Synced(w, sessionId.value, s.value.0)))
  {
    if NullOrBlank(sessionId) {
      LoadAfterCreate(w.sessions, newId, createdAt, cwd, title);
    }
  }

  // ------------------------------------------------------ prompts

  /** A loop turn for code sends the wrapped message with a history that
      already ends in it, so the chat model receives it twice in a row as
      the last two messages; the correction round does the same with the
      correction. */
  lemma LoopPromptRepeatsMessage(system: Str, developer: Str, project: Str, header: Str, rag: Option<Retriever>,
                                 history: seq<Turn>, n: int, message: Str)
    ensures var ms := ChatPrompter(system, developer, project, header, rag)(history + [Turn(n, "user", message, None)], message);
      |ms| >= 3 && ms[|ms| - 2] == UserMessage(message) && ms[|ms| - 1] == UserMessage(message)
  {
    MessagesRepeat(system, developer, project, Some(RagContext(header, rag, Some(message))), history, n, message);
  }

  /** The same, for any retrieval context. */
  lemma MessagesRepeat(system: Str, developer: Str, project: Str, context: Option<Str>,
                       history: seq<Turn>, n: int, message: Str)
    ensures var ms := Messages(system, developer, project, context,
                               Some(TrimHistory(Some(history + [Turn(n, "user", message, None)]))), message);
      |ms| >= 3 && ms[|ms| - 2] == UserMessage(message) && ms[|ms| - 1] == UserMessage(message)
  {
    var h := history + [Turn(n, "user", message, None)];
    var r := TrimHistory(Some(h));
    assert r[|r| - 1] == h[|h| - 1] by {
      assert h == h[..|h| - |r|] + r;
    }
    ReplayedEndsWithUser(r, message);
    var front := [SystemMessage(system)] + Layer(developer) + Layer(project) + RagLayer(context);
    var replayed := Replayed(r);
    var ms := Messages(system, developer, project, context, Some(r), message);
    assert ms == front + replayed + [UserMessage(message)];
    assert (front + replayed)[|front + replayed| - 1] == replayed[|replayed| - 1];
  }

  /** A history ending in a user turn replays as messages ending in it. */
  lemma ReplayedEndsWithUser(history: seq<Turn>, message: Str)
    requires |history| > 0 && history[|history| - 1].role == "user" && history[|history| - 1].msg == message
    ensures |Replayed(history)| > 0 && Replayed(history)[|Replayed(history)| - 1] == UserMessage(message)
  {
  }
}
