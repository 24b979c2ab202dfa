/** Lays out the messages of one chat call: the system prompt, the non-blank
    developer, project and retrieval layers, the replayed history, then the
    new user message. */
module ChatPromptBuilder {
  import opened Wrappers
  import opened JavaText
  import opened Domain
  import opened PromptLoader

  /** A system message for a layer, or nothing when the layer is blank. */
  function Layer(text: Str): seq<Message> {
    if IsBlank(text) then [] else [SystemMessage(text)]
  }

  /** The retrieval layer: absent when null or blank. */
  function RagLayer(ragContext: Option<Str>): seq<Message> {
    if ragContext.Some? && !IsBlank(ragContext.value) then [SystemMessage(ragContext.value)] else []
  }

  /** The message one history turn replays as: user and assistant turns
      only. */
  function Replay(turn: Turn): seq<Message> {
    if turn.role == "user" then [UserMessage(turn.msg)]
    else if turn.role == "assistant" then [AssistantMessage(turn.msg)]
    else []
  }

  function Replayed(history: seq<Turn>): seq<Message>
    decreases |history|
  {
    if history == [] then []
    else Replayed(history[..|history| - 1]) + Replay(history[|history| - 1])
  }

  /** The messages of one call, given the three loaded prompt layers. */
  function Messages(system: Str, developer: Str, project: Str, ragContext: Option<Str>,
                    history: Option<seq<Turn>>, newUserMessage: Str): seq<Message>
  {
    [SystemMessage(system)] + Layer(developer) + Layer(project) + RagLayer(ragContext)
    + (if history.Some? then Replayed(history.value) else []) + [UserMessage(newUserMessage)]
  }

  /** A turn the builder replays. */
  predicate Spoken(turn: Turn) {
    turn.role == "user" || turn.role == "assistant"
  }

  /** How many turns of `history` take part in the conversation. */
  function SpokenCount(history: seq<Turn>): nat
    decreases |history|
  {
    if history == [] then 0 else (if Spoken(history[0]) then 1 else 0) + SpokenCount(history[1..])
  }

  /** Replaying a concatenation replays each part in order. */
  lemma {:induction false} ReplayedConcat(a: seq<Turn>, b: seq<Turn>)
    ensures Replayed(a + b) == Replayed(a) + Replayed(b)
    decreases |b|
  {
    if b == [] {
      assert a + b == a;
    } else {
      assert (a + b)[..|a + b| - 1] == a + b[..|b| - 1];
      ReplayedConcat(a, b[..|b| - 1]);
    }
  }

  /** The turns of `history` the builder replays, in order. */
  function SpokenTurns(history: seq<Turn>): seq<Turn>
    decreases |history|
  {
    if history == [] then [] else (if Spoken(history[0]) then [history[0]] else []) + SpokenTurns(history[1..])
  }

  /** The message a replayed turn becomes: its text, under its role. */
  function AsMessage(turn: Turn): Message {
    if turn.role == "user" then UserMessage(turn.msg) else AssistantMessage(turn.msg)
  }

  /** One message per user or assistant turn, in history order, each
      carrying that turn's text with the matching role. */
  lemma {:induction false} ReplayedFaithful(history: seq<Turn>)
    ensures |Replayed(history)| == SpokenCount(history) == |SpokenTurns(history)|
    ensures forall k | 0 <= k < |Replayed(history)| ::
      Spoken(SpokenTurns(history)[k]) && Replayed(history)[k] == AsMessage(SpokenTurns(history)[k])
    decreases |history|
  {
    if history != [] {
      var rest := history[1..];
      ReplayedFaithful(rest);
      ReplayedConcat([history[0]], rest);
      assert [history[0]] + rest == history;
      assert Replayed([history[0]]) == Replayed([]) + Replay(history[0]) by {
        assert [history[0]][..0] == [];
      }
      var head := if Spoken(history[0]) then [history[0]] else [];
      assert SpokenTurns(history) == head + SpokenTurns(rest);
      assert Replayed(history) == Replay(history[0]) + Replayed(rest);
      assert |Replay(history[0])| == |head|;
      forall k | 0 <= k < |Replayed(history)|
        ensures Spoken(SpokenTurns(history)[k]) && Replayed(history)[k] == AsMessage(SpokenTurns(history)[k])
      {
        if k < |head| {
          assert SpokenTurns(history)[k] == history[0];
        } else {
          assert SpokenTurns(history)[k] == SpokenTurns(rest)[k - |head|];
          assert Replayed(history)[k] == Replayed(rest)[k - |head|];
        }
      }
    }
  }

  /** The shape of every call: system prompt first, new user message last,
      and one message per non-blank layer and per spoken turn in between. */
  lemma MessagesShape(system: Str, developer: Str, project: Str, ragContext: Option<Str>,
                      history: Option<seq<Turn>>, newUserMessage: Str)
    ensures var ms := Messages(system, developer, project, ragContext, history, newUserMessage);
      ms[0] == SystemMessage(system) && ms[|ms| - 1] == UserMessage(newUserMessage)
      && |ms| == 1 + |Layer(developer)| + |Layer(project)| + |RagLayer(ragContext)|
                 + (if history.Some? then SpokenCount(history.value) else 0) + 1
  {
    if history.Some? {
      ReplayedFaithful(history.value);
    }
  }

  /** `VawkChatPromptBuilder`. */
  class PromptBuilder {
    const loader: Loader

    constructor(loader: Loader)
      ensures this.loader == loader
    {
      this.loader := loader;
    }

    /** `buildMessages(newUserMessage, history, ragContext)`: fails only
        when the system prompt cannot be loaded. */
    method BuildMessages(newUserMessage: Str, history: Option<seq<Turn>>, ragContext: Option<Str>)
      returns (r: Result<seq<Message>, Str>)
      modifies loader
      ensures old(loader.NextSystemPrompt()).Err? ==> r == Err(old(loader.NextSystemPrompt()).error)
      ensures old(loader.NextSystemPrompt()).Ok? ==>
        r == Ok(Messages(old(loader.NextSystemPrompt()).value, old(loader.NextDeveloperPrompt()),
                         old(loader.NextProjectPrompt()), ragContext, history, newUserMessage))
      ensures loader.env == old(loader.env)
      ensures loader.NextSystemPrompt() == old(loader.NextSystemPrompt())
      ensures loader.NextDeveloperPrompt() == old(loader.NextDeveloperPrompt())
      ensures loader.NextProjectPrompt() == old(loader.NextProjectPrompt())
    {
      var messages := LoadLayers();
      if messages.Err? {
        return Err(messages.error);
      }
      var layered := messages.value;
      if ragContext.Some? && !IsBlank(ragContext.value) {
        layered := layered + [SystemMessage(ragContext.value)];
      }
      assert layered == messages.value + RagLayer(ragContext);
      if history.Some? {
        layered := ReplayHistory(layered, history.value);
      } else {
        assert layered == layered + [];
      }
      layered := layered + [UserMessage(newUserMessage)];
      return Ok(layered);
    }

    /** The system, developer and project layers `buildMessages` opens
        with; a blank developer or project prompt adds no message. */
    method LoadLayers() returns (r: Result<seq<Message>, Str>)
      modifies loader
      ensures old(loader.NextSystemPrompt()).Err? ==> r == Err(old(loader.NextSystemPrompt()).error)
      ensures old(loader.NextSystemPrompt()).Ok? ==>
        r == Ok([SystemMessage(old(loader.NextSystemPrompt()).value)]
                + Layer(old(loader.NextDeveloperPrompt())) + Layer(old(loader.NextProjectPrompt())))
      ensures loader.env == old(loader.env)
      ensures loader.NextSystemPrompt() == old(loader.NextSystemPrompt())
      ensures loader.NextDeveloperPrompt() == old(loader.NextDeveloperPrompt())
      ensures loader.NextProjectPrompt() == old(loader.NextProjectPrompt())
    {
      ghost var system0, dev0, project0 := loader.NextSystemPrompt(), loader.NextDeveloperPrompt(), loader.NextProjectPrompt();
      var system := loader.LoadSystemPrompt();
      if system.Err? {
        return Err(system.error);
      }
      var messages := [SystemMessage(system.value)];
      var dev := loader.LoadDeveloperPrompt();
      if !IsBlank(dev) {
        messages := messages + [SystemMessage(dev)];
      }
      var project := loader.LoadProjectPrompt();
      if !IsBlank(project) {
        messages := messages + [SystemMessage(project)];
      }
      assert system == system0 && dev == dev0 && project == project0;
      assert messages == [SystemMessage(system.value)] + Layer(dev) + Layer(project);
      return Ok(messages);
    }

    /** The history loop of `buildMessages`. */
    static method ReplayHistory(layers: seq<Message>, turns: seq<Turn>) returns (messages: seq<Message>)
      ensures messages == layers + Replayed(turns)
    {
      messages := layers;
      var i := 0;
      while i < |turns|
        invariant 0 <= i <= |turns|
        invariant messages == layers + Replayed(turns[..i])
      {
        assert turns[..i + 1][..i] == turns[..i];
        var turn := turns[i];
        if turn.role == "user" {
          messages := messages + [UserMessage(turn.msg)];
        } else if turn.role == "assistant" {
          messages := messages + [AssistantMessage(turn.msg)];
        }
        i := i + 1;
      }
      assert turns[..i] == turns;
    }

    /** `buildMessages(newUserMessage, history)`: the same call with a null
        retrieval context. */
    method BuildMessagesWithoutRag(newUserMessage: Str, history: Option<seq<Turn>>)
      returns (r: Result<seq<Message>, Str>)
      modifies loader
      ensures old(loader.NextSystemPrompt()).Err? ==> r == Err(old(loader.NextSystemPrompt()).error)
      ensures old(loader.NextSystemPrompt()).Ok? ==>
        r == Ok(Messages(old(loader.NextSystemPrompt()).value, old(loader.NextDeveloperPrompt()),
                         old(loader.NextProjectPrompt()), None, history, newUserMessage))
      ensures loader.env == old(loader.env)
      ensures loader.NextSystemPrompt() == old(loader.NextSystemPrompt())
      ensures loader.NextDeveloperPrompt() == old(loader.NextDeveloperPrompt())
      ensures loader.NextProjectPrompt() == old(loader.NextProjectPrompt())
    {
      r := BuildMessages(newUserMessage, history, None);
    }
  }
}
