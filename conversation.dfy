/**
 * The entity types of a conversation (accord/entity.py) and the chatbot that answers a
 * question from retrieved sources and streams the answer (accord/chatbot.py).
 *
 * The workflow is the linear graph retrieve → generate. The retriever search, the chat
 * model and the prompt templates are function-valued fields; the streaming runtime is a
 * function from the retriever binding and the payload to what it emits: the tagged
 * items, which `_ask_model` translates into events, and whether it then finishes or
 * raises. `ask` is a generator: it is modelled by the number of times its caller pulls
 * from it, since the code after each `yield` runs only when the caller asks for the
 * next event.
 */
module Entity {
  import opened Documents

  /** `Role` */
  datatype Role = User | Assistant

  /** `Message`: one entry of the caller's chat history. */
  datatype Message = Message(role: Role, content: string)

  /** `SourcesEvent`, `ChunkEvent` and `FinalAnswerEvent` as one tagged type. */
  datatype Event =
    | Sources(documents: seq<Doc>)
    | ChunkEvent(content: string)
    | FinalAnswer(content: string)

  /** The langchain messages a prompt is made of. */
  datatype LangMessage = SystemMessage(content: string) | HumanMessage(content: string) | AIMessage(content: string)

  /** `State`: what the workflow's nodes read and write. */
  datatype State = State(question: string, chatHistory: seq<LangMessage>, context: seq<Doc>, answer: string)
}

module Conversation {
  import opened Results
  import opened Text
  import opened Utils
  import opened Documents
  import opened Ingestion
  import opened Entity

  /** The prompts of the `llm_prompts` configuration section. */
  datatype Templates = Templates(
    system: (string, string) -> string,   // SYSTEM_PROMPT filled with (question, context)
    query: (string, string) -> string,    // QUERY_TEMPLATE filled with (question, context)
    file: (string, string) -> string)     // FILE_TEMPLATE filled with (name, content)

  /** The input the workflow is streamed with. */
  datatype Payload = Payload(question: string, chatHistory: seq<LangMessage>)

  /**
   * One item of `workflow.stream(..., stream_mode=["updates", "messages"])`: a message
   * fragment, or a node's state update (`_retrieve` sets the context, `_generate` the answer).
   */
  datatype StreamItem =
    | MessagesItem(fragment: string)
    | UpdatesItem(retrieved: Option<seq<Doc>>, generated: Option<string>)

  /** A whole stream: its items, then whether it finishes or raises the workflow's exception. */
  datatype Stream = Stream(items: seq<StreamItem>, ending: Outcome)

  // ---------------------------------------------------------------------------
  // History

  /** The langchain message of one history entry: assistant entries are AI messages, all others human. */
  function AsLangMessage(m: Message): LangMessage
  {
    if m.role == Assistant then AIMessage(m.content) else HumanMessage(m.content)
  }

  /** The history comprehension of `_ask_model`. */
  function MapHistory(history: seq<Message>): (r: seq<LangMessage>)
    ensures |r| == |history|
    ensures forall i :: 0 <= i < |history| ==>
      && !r[i].SystemMessage?
      && r[i].content == history[i].content
      && (r[i].AIMessage? <==> history[i].role == Assistant)
  {
    seq(|history|, i requires 0 <= i < |history| => AsLangMessage(history[i]))
  }

  /** The entry a history message stands for. */
  function AsMessage(m: LangMessage): Message
  {
    if m.AIMessage? then Message(Assistant, m.content) else Message(User, m.content)
  }

  /** Nothing is lost in the mapping: the roles and texts can be read back, in order. */
  lemma MapHistoryRoundTrip(history: seq<Message>)
    ensures seq(|history|, i requires 0 <= i < |history| => AsMessage(MapHistory(history)[i])) == history
  {
    var back := seq(|history|, i requires 0 <= i < |history| => AsMessage(MapHistory(history)[i]));
    forall i | 0 <= i < |history|
      ensures back[i] == history[i]
    {
      assert history[i].role == User || history[i].role == Assistant;
    }
  }

  // ---------------------------------------------------------------------------
  // Sources and prompt

  /** Every document names its source file. */
  predicate HasSources(docs: seq<Doc>)
  {
    forall i :: 0 <= i < |docs| ==> SourceKey in docs[i].metadata
  }

  /** Each document rendered through the file template, in order. */
  function Rendered(docs: seq<Doc>, fileTemplate: (string, string) -> string): seq<string>
    requires HasSources(docs)
  {
    seq(|docs|, i requires 0 <= i < |docs| && HasSources(docs) => fileTemplate(docs[i].metadata[SourceKey], docs[i].pageContent))
  }

  /** `_format_docs`: a document without a `source` makes the lookup raise. */
  function FormatDocs(docs: seq<Doc>, fileTemplate: (string, string) -> string): (r: Result<string>)
    decreases |docs|
    ensures r.Err? <==> !HasSources(docs)
    ensures r.Err? ==> r.error == MissingSourceMetadata
    ensures r.Ok? ==> r.value == Join("\n\n", Rendered(docs, fileTemplate))
  {
    if docs == [] then Ok("")
    else
      var n := |docs|;
      match FormatDocs(docs[..n - 1], fileTemplate)
      case Err(e) => Err(e)
      case Ok(init) =>
        if SourceKey !in docs[n - 1].metadata then Err(MissingSourceMetadata)
        else
          RenderedSlice(docs, fileTemplate, 0, n - 1);
          assert docs[0..n - 1] == docs[..n - 1];
          Ok(init + (if n == 1 then "" else "\n\n") + fileTemplate(docs[n - 1].metadata[SourceKey], docs[n - 1].pageContent))
  }

  /** The rendered sources take their text from the documents in order, separated by blank lines. */
  lemma FormatDocsSeparates(docs: seq<Doc>, fileTemplate: (string, string) -> string, k: nat)
    requires HasSources(docs) && 0 < k < |docs|
    ensures FormatDocs(docs, fileTemplate).value
      == FormatDocs(docs[..k], fileTemplate).value + "\n\n" + FormatDocs(docs[k..], fileTemplate).value
  {
    RenderedSplits(docs, fileTemplate, k);
    FormatDocsJoins(docs, fileTemplate);
    FormatDocsJoins(docs[..k], fileTemplate);
    FormatDocsJoins(docs[k..], fileTemplate);
  }

  lemma RenderedSplits(docs: seq<Doc>, fileTemplate: (string, string) -> string, k: nat)
    requires HasSources(docs) && 0 < k < |docs|
    ensures HasSources(docs[..k]) && HasSources(docs[k..])
    ensures Join("\n\n", Rendered(docs, fileTemplate))
      == Join("\n\n", Rendered(docs[..k], fileTemplate)) + "\n\n" + Join("\n\n", Rendered(docs[k..], fileTemplate))
  {
    var rendered := Rendered(docs, fileTemplate);
    assert docs[0..k] == docs[..k] && docs[k..|docs|] == docs[k..];
    RenderedSlice(docs, fileTemplate, 0, k);
    RenderedSlice(docs, fileTemplate, k, |docs|);
    assert rendered[0..k] == rendered[..k] && rendered[k..|docs|] == rendered[k..];
    JoinSplit("\n\n", rendered, k);
  }

  lemma FormatDocsJoins(docs: seq<Doc>, fileTemplate: (string, string) -> string)
    requires HasSources(docs)
    ensures FormatDocs(docs, fileTemplate) == Ok(Join("\n\n", Rendered(docs, fileTemplate)))
  {
  }

  lemma RenderedSlice(docs: seq<Doc>, fileTemplate: (string, string) -> string, lo: nat, hi: nat)
    requires HasSources(docs) && lo <= hi <= |docs|
    ensures HasSources(docs[lo..hi])
    ensures Rendered(docs[lo..hi], fileTemplate) == Rendered(docs, fileTemplate)[lo..hi]
  {
    var part := docs[lo..hi];
    forall i | 0 <= i < |part|
      ensures part[i] == docs[lo + i]
    {
    }
  }

  /** `PROMPT_TEMPLATE.invoke`: the system prompt, the history, then the question with its context. */
  function PromptFor(templates: Templates, question: string, context: string, history: seq<LangMessage>): (messages: seq<LangMessage>)
    ensures |messages| == |history| + 2
    ensures messages[0] == SystemMessage(templates.system(question, context))
    ensures messages[1..|history| + 1] == history
    ensures messages[|history| + 1] == HumanMessage(templates.query(question, context))
  {
    [SystemMessage(templates.system(question, context))] + history + [HumanMessage(templates.query(question, context))]
  }

  // ---------------------------------------------------------------------------
  // Events

  /** The events `_ask_model` yields for one stream item. */
  function EventsOf(item: StreamItem): seq<Event>
  {
    match item
    case MessagesItem(fragment) => [ChunkEvent(fragment)]
    case UpdatesItem(retrieved, generated) =>
      (if retrieved.Some? then [Sources(retrieved.value)] else [])
      + (if generated.Some? then [FinalAnswer(generated.value)] else [])
  }

  /** The events `_ask_model` yields for a stream, in stream order. */
  function Translate(items: seq<StreamItem>): seq<Event>
  {
    if items == [] then [] else EventsOf(items[0]) + Translate(items[1..])
  }

  /** Translation works item by item: a stream split in two yields the two parts' events in turn. */
  lemma {:induction false} TranslateAppend(a: seq<StreamItem>, b: seq<StreamItem>)
    ensures Translate(a + b) == Translate(a) + Translate(b)
  {
    if a == [] {
      assert a + b == b;
    } else {
      var ab := a + b;
      assert ab[0] == a[0] && ab[1..] == a[1..] + b;
      TranslateAppend(a[1..], b);
      calc {
        Translate(ab);
        EventsOf(a[0]) + Translate(a[1..] + b);
        EventsOf(a[0]) + (Translate(a[1..]) + Translate(b));
        (EventsOf(a[0]) + Translate(a[1..])) + Translate(b);
      }
    }
  }

  /** One more item yields its events after those of the items before it. */
  lemma TranslateSnoc(items: seq<StreamItem>, item: StreamItem)
    ensures Translate(items + [item]) == Translate(items) + EventsOf(item)
  {
    TranslateAppend(items, [item]);
    assert [item][1..] == [];
  }

  /** The fragments of the answer as the runtime streams them. */
  function MessagesItems(fragments: seq<string>): (items: seq<StreamItem>)
    ensures |items| == |fragments|
    ensures forall i :: 0 <= i < |fragments| ==> items[i] == MessagesItem(fragments[i])
  {
    if fragments == [] then [] else MessagesItems(fragments[..|fragments| - 1]) + [MessagesItem(fragments[|fragments| - 1])]
  }

  /** One chunk event per fragment. */
  function ChunkEvents(fragments: seq<string>): (events: seq<Event>)
    ensures |events| == |fragments|
    ensures forall i :: 0 <= i < |fragments| ==> events[i] == ChunkEvent(fragments[i])
  {
    if fragments == [] then [] else ChunkEvents(fragments[..|fragments| - 1]) + [ChunkEvent(fragments[|fragments| - 1])]
  }

  /** What the runtime streams for the retrieve → generate workflow: the context, the answer's fragments, the answer. */
  function WorkflowStream(context: seq<Doc>, fragments: seq<string>, answer: string): seq<StreamItem>
  {
    [UpdatesItem(Some(context), None)] + MessagesItems(fragments) + [UpdatesItem(None, Some(answer))]
  }

  /** The events of a turn: the sources, one chunk per fragment, the final answer. */
  function TurnEvents(context: seq<Doc>, fragments: seq<string>, answer: string): seq<Event>
  {
    [Sources(context)] + ChunkEvents(fragments) + [FinalAnswer(answer)]
  }

  lemma {:induction false} TranslateFragments(fragments: seq<string>)
    decreases |fragments|
    ensures Translate(MessagesItems(fragments)) == ChunkEvents(fragments)
  {
    if fragments != [] {
      var n := |fragments|;
      TranslateFragments(fragments[..n - 1]);
      TranslateSnoc(MessagesItems(fragments[..n - 1]), MessagesItem(fragments[n - 1]));
    }
  }

  /**
   * The workflow's stream becomes a sources event carrying the retrieved context, a chunk
   * event per fragment in order, and a final-answer event carrying the answer.
   */
  lemma TranslateWorkflowStream(context: seq<Doc>, fragments: seq<string>, answer: string)
    ensures Translate(WorkflowStream(context, fragments, answer)) == TurnEvents(context, fragments, answer)
  {
    var first := [UpdatesItem(Some(context), None)];
    var last := [UpdatesItem(None, Some(answer))];
    TranslateAppend(first + MessagesItems(fragments), last);
    TranslateAppend(first, MessagesItems(fragments));
    TranslateFragments(fragments);
    assert Translate(first) == [Sources(context)] by {
      assert first[..0] == [];
    }
    assert Translate(last) == [FinalAnswer(answer)] by {
      assert last[..0] == [];
    }
  }

  // ---------------------------------------------------------------------------
  // A turn of `ask`, pull by pull

  /** What a turn leaves behind: the events the caller received, the chat history, and whether it raised. */
  datatype Turn = Turn(yielded: seq<Event>, history: seq<Message>, outcome: Outcome)

  function Prefixed(events: seq<Event>, t: Turn): Turn
  {
    Turn(events + t.yielded, t.history, t.outcome)
  }

  /**
   * `ask` driven by `pulls` calls of `next()`: each pull yields the next event; the code
   * after a final answer's `yield` (strip the thinking, append the two messages) runs on
   * the pull after it. A pull that finds no event left ends the stream as `ending` says:
   * it finishes, or it raises what the workflow raised.
   */
  function AskRun(prompt: string, events: seq<Event>, ending: Outcome, history: seq<Message>, pulls: nat): Turn
    decreases |events|
  {
    if pulls == 0 then Turn([], history, Done)
    else if events == [] then Turn([], history, ending)
    else if pulls == 1 then Turn([events[0]], history, Done)
    else
      match Resume(prompt, events[0], history)
      case Err(e) => Turn([events[0]], history, Failed(e))
      case Ok(next) => Prefixed([events[0]], AskRun(prompt, events[1..], ending, next, pulls - 1))
  }

  /**
   * The code after `yield event`: after a final answer, the prompt and the answer with its
   * thinking removed are appended, unless the answer has no `</think>`; otherwise nothing happens.
   */
  function Resume(prompt: string, event: Event, history: seq<Message>): Result<seq<Message>>
  {
    if !event.FinalAnswer? then Ok(history)
    else
      match RemoveThinking(event.content)
      case Err(e) => Err(e)
      case Ok(response) => Ok(history + Exchange(prompt, response))
  }

  /**
   * Resuming after any other event changes nothing; resuming after a final answer raises
   * exactly when the answer has no `</think>`, and otherwise appends the prompt as the
   * user's entry and the stripped answer as the assistant's, after the untouched history.
   */
  lemma ResumeAppendsExchange(prompt: string, event: Event, history: seq<Message>)
    ensures var r := Resume(prompt, event, history);
      && (!event.FinalAnswer? ==> r == Ok(history))
      && (event.FinalAnswer? ==> (r.Err? <==> !Contains(event.content, CloseTag)))
      && (r.Err? ==> r.error == MissingCloseTag)
      && (event.FinalAnswer? && r.Ok? ==>
          && |r.value| == |history| + 2
          && r.value[..|history|] == history
          && r.value[|history|] == Message(User, prompt)
          && r.value[|history| + 1] == Message(Assistant, RemoveThinking(event.content).value))
  {
  }

  /**
   * `ask` passes the events on unchanged and in order: the caller receives a prefix of
   * them, at most one per pull, all of them when it keeps pulling and nothing raises;
   * the entries the history had are never touched.
   */
  lemma {:induction false} AskYieldsEventsInOrder(prompt: string, events: seq<Event>, ending: Outcome, history: seq<Message>, pulls: nat)
    decreases |events|
    ensures var t := AskRun(prompt, events, ending, history, pulls);
      && |t.yielded| <= |events| && |t.yielded| <= pulls
      && t.yielded == events[..|t.yielded|]
      && (t.outcome.Done? && pulls > |events| ==> t.yielded == events)
      && |t.history| >= |history| && t.history[..|history|] == history
  {
    if pulls > 1 && events != [] {
      var e := events[0];
      match Resume(prompt, e, history)
      case Err(_) =>
        assert events[..1] == [e];
      case Ok(h) =>
        AskStep(prompt, events, ending, history, pulls);
        AskYieldsEventsInOrder(prompt, events[1..], ending, h, pulls - 1);
        var t := AskRun(prompt, events[1..], ending, h, pulls - 1);
        assert events[..|t.yielded| + 1] == [e] + events[1..][..|t.yielded|];
        assert h[..|history|] == history;
    } else if pulls == 1 && events != [] {
      assert events[..1] == [events[0]];
    }
  }

  /** One pull past an event whose resumption does not raise. */
  lemma AskStep(prompt: string, events: seq<Event>, ending: Outcome, history: seq<Message>, pulls: nat)
    requires events != [] && pulls > 1 && Resume(prompt, events[0], history).Ok?
    ensures AskRun(prompt, events, ending, history, pulls)
      == Prefixed([events[0]], AskRun(prompt, events[1..], ending, Resume(prompt, events[0], history).value, pulls - 1))
  {
  }

  /** The pull that yields event `i`, then the code after that `yield` when the caller pulls again. */
  lemma AskAt(prompt: string, events: seq<Event>, ending: Outcome, i: nat, history: seq<Message>, pulls: nat, earlier: seq<Event>)
    requires i < |events| && i < pulls
    ensures var t := Prefixed(earlier, AskRun(prompt, events[i..], ending, history, pulls - i));
      && (i + 1 == pulls ==> t == Turn(earlier + [events[i]], history, Done))
      && (i + 1 < pulls && Resume(prompt, events[i], history).Err? ==>
            t == Turn(earlier + [events[i]], history, Failed(MissingCloseTag)))
      && (i + 1 < pulls && Resume(prompt, events[i], history).Ok? ==>
            t == Prefixed(earlier + [events[i]], AskRun(prompt, events[i + 1..], ending, Resume(prompt, events[i], history).value, pulls - i - 1)))
  {
    var rest := events[i..];
    assert rest[0] == events[i] && rest[1..] == events[i + 1..];
    if i + 1 < pulls && Resume(prompt, events[i], history).Ok? {
      AskStep(prompt, rest, ending, history, pulls - i);
    }
  }

  lemma PrefixedTwice(first: seq<Event>, second: seq<Event>, t: Turn)
    ensures Prefixed(first, Prefixed(second, t)) == Prefixed(first + second, t)
  {
  }

  /** The pull that yields an event stops there, before the code after the `yield`. */
  lemma AskSuspends(prompt: string, events: seq<Event>, ending: Outcome, history: seq<Message>)
    requires events != []
    ensures AskRun(prompt, events, ending, history, 1) == Turn([events[0]], history, Done)
  {
  }

  /** Resuming after a final answer without `</think>` raises, with nothing appended. */
  lemma AskRaises(prompt: string, events: seq<Event>, ending: Outcome, history: seq<Message>, pulls: nat)
    requires events != [] && pulls > 1 && Resume(prompt, events[0], history).Err?
    ensures AskRun(prompt, events, ending, history, pulls) == Turn([events[0]], history, Failed(MissingCloseTag))
  {
  }

  /** A pull past the last event ends the turn as the stream ends, with nothing more yielded. */
  lemma AskRunsOut(prompt: string, ending: Outcome, history: seq<Message>, pulls: nat)
    requires pulls > 0
    ensures AskRun(prompt, [], ending, history, pulls) == Turn([], history, ending)
  {
  }

  /** The two history entries a resumed final answer appends. */
  function Exchange(prompt: string, response: string): seq<Message>
  {
    [Message(User, prompt), Message(Assistant, response)]
  }

  /**
   * Pulls that resume after no final answer pass the events on and leave the history
   * alone; a pull past the last event ends the turn as the stream ends.
   */
  lemma {:induction false} AskWithoutResumedAnswer(prompt: string, events: seq<Event>, ending: Outcome, history: seq<Message>, pulls: nat)
    requires forall j :: 0 <= j < |events| && j < pulls - 1 ==> !events[j].FinalAnswer?
    decreases |events|
    ensures AskRun(prompt, events, ending, history, pulls)
      == Turn(events[..Min(pulls, |events|)], history, if pulls > |events| then ending else Done)
  {
    if pulls > 1 && events != [] {
      AskWithoutResumedAnswer(prompt, events[1..], ending, history, pulls - 1);
      assert events[..Min(pulls, |events|)] == [events[0]] + events[1..][..Min(pulls - 1, |events| - 1)];
    } else if pulls == 1 && events != [] {
      assert events[..1] == [events[0]];
    }
  }

  /** Walking past events that are not final answers yields them and changes nothing. */
  lemma {:induction false} AskPassesOver(prompt: string, events: seq<Event>, ending: Outcome, history: seq<Message>, pulls: nat, k: nat)
    requires k <= |events| && pulls > k
    requires forall j :: 0 <= j < k ==> !events[j].FinalAnswer?
    decreases k
    ensures AskRun(prompt, events, ending, history, pulls) == Prefixed(events[..k], AskRun(prompt, events[k..], ending, history, pulls - k))
  {
    if k > 0 {
      DropFirst(events, k);
      AskPassesOver(prompt, events[1..], ending, history, pulls - 1, k - 1);
      AskStep(prompt, events, ending, history, pulls);
      PrefixedTwice([events[0]], events[1..][..k - 1], AskRun(prompt, events[k..], ending, history, pulls - k));
    } else {
      assert events[..0] == [] && events[0..] == events;
    }
  }

  /** The first `k` events are the first one, then the next `k - 1`; the rest after them is the same either way. */
  lemma DropFirst(events: seq<Event>, k: nat)
    requires 0 < k <= |events|
    ensures events[1..][k - 1..] == events[k..]
    ensures events[..k] == [events[0]] + events[1..][..k - 1]
  {
  }

  /**
   * A turn pulled to the end: the caller receives every event; when the answer holds
   * `</think>` exactly two entries are appended, the prompt as the user's and the stripped
   * answer as the assistant's, and the turn ends as the stream does; when it does not, the
   * strip raises and nothing is appended.
   */
  lemma CompletedTurn(prompt: string, context: seq<Doc>, fragments: seq<string>, answer: string, ending: Outcome,
                      history: seq<Message>, pulls: nat)
    requires pulls > |TurnEvents(context, fragments, answer)|
    ensures var t := AskRun(prompt, TurnEvents(context, fragments, answer), ending, history, pulls);
      && t.yielded == TurnEvents(context, fragments, answer)
      && (RemoveThinking(answer).Ok? ==>
            t.outcome == ending && t.history == history + [Message(User, prompt), Message(Assistant, RemoveThinking(answer).value)])
      && (RemoveThinking(answer).Err? ==>
            t.outcome == Failed(MissingCloseTag) && t.history == history)
  {
    var events := TurnEvents(context, fragments, answer);
    var k := |events| - 1;
    AskPassesOver(prompt, events, ending, history, pulls, k);
    assert events[k..] == [FinalAnswer(answer)];
    assert events[..k] + [FinalAnswer(answer)] == events;
  }

  /** A turn the caller stops pulling before resuming after the final answer leaves the history as it was. */
  lemma AbandonedTurn(prompt: string, context: seq<Doc>, fragments: seq<string>, answer: string, ending: Outcome,
                      history: seq<Message>, pulls: nat)
    requires pulls <= |TurnEvents(context, fragments, answer)|
    ensures AskRun(prompt, TurnEvents(context, fragments, answer), ending, history, pulls)
      == Turn(TurnEvents(context, fragments, answer)[..pulls], history, Done)
  {
    AskWithoutResumedAnswer(prompt, TurnEvents(context, fragments, answer), ending, history, pulls);
  }

  /**
   * What `workflow.stream` emits for one run of retrieve → generate: the retrieve update
   * carrying `context`, then either some answer fragments and the generate update carrying
   * the answer, after which the stream finishes, or the exception `_generate` raised.
   */
  ghost predicate StreamOfRun(stream: Stream, context: seq<Doc>, run: Result<State>)
  {
    match run
    case Ok(state) => stream.ending == Done && exists fragments :: stream.items == WorkflowStream(context, fragments, state.answer)
    case Err(e) => stream == Stream([UpdatesItem(Some(context), None)], Failed(e))
  }

  // ---------------------------------------------------------------------------
  // The chat history and the chatbot

  /** The caller's `chat_history` list, which `ask` appends to. */
  class ChatHistory {
    var messages: seq<Message>

    constructor (messages: seq<Message>)
      ensures this.messages == messages
    {
      this.messages := messages;
    }

    /** `chat_history.append(message)` */
    method Append(message: Message)
      modifies this
      ensures messages == old(messages) + [message]
    {
      messages := messages + [message];
    }
  }

  class Chatbot {
    const ingestor: DataIngestor
    const templates: Templates
    const search: (Retriever, string) -> seq<Doc>                      // the composed retriever's invoke(question)
    const chatModel: seq<LangMessage> -> string                        // ChatOllama.invoke(messages).content
    const runtime: (Option<Retriever>, Payload) -> Stream              // workflow.stream(payload, ...) under a binding
    var retriever: Option<Retriever>

    constructor (ingestor: DataIngestor, templates: Templates, search: (Retriever, string) -> seq<Doc>,
                 chatModel: seq<LangMessage> -> string, runtime: (Option<Retriever>, Payload) -> Stream)
      ensures this.ingestor == ingestor && this.templates == templates && this.search == search
      ensures this.chatModel == chatModel && this.runtime == runtime
      ensures retriever == None
    {
      this.ingestor := ingestor;
      this.templates := templates;
      this.search := search;
      this.chatModel := chatModel;
      this.runtime := runtime;
      retriever := None;
    }

    /** `_retrieve` under the binding `binding`: no context until a retriever is bound, then what it finds for the question. */
    function Retrieve(binding: Option<Retriever>, question: string): (context: seq<Doc>)
      ensures binding.None? ==> context == []
      ensures binding.Some? ==> context == search(binding.value, question)
    {
      match binding
      case None => []
      case Some(r) => search(r, question)
    }

    /** `_generate`: the chat model's reply to the prompt built from the question, the sources and the history. */
    function Generate(state: State): (r: Result<State>)
      ensures r.Err? <==> !HasSources(state.context)
      ensures r.Err? ==> r.error == MissingSourceMetadata
      ensures r.Ok? ==> r.value == state.(answer := chatModel(PromptFor(templates, state.question, FormatDocs(state.context, templates.file).value, state.chatHistory)))
    {
      match FormatDocs(state.context, templates.file)
      case Err(e) => Err(e)
      case Ok(context) => Ok(state.(answer := chatModel(PromptFor(templates, state.question, context, state.chatHistory))))
    }

    /** The workflow under the binding `binding`: `_retrieve`, then `_generate` on the state it leaves. */
    function RunWorkflow(binding: Option<Retriever>, payload: Payload): (r: Result<State>)
      ensures r.Err? <==> !HasSources(Retrieve(binding, payload.question))
      ensures r.Err? ==> r.error == MissingSourceMetadata
      ensures r.Ok? ==>
        && r.value.question == payload.question
        && r.value.chatHistory == payload.chatHistory
        && r.value.context == Retrieve(binding, payload.question)
        && r.value.answer == chatModel(PromptFor(templates, payload.question,
             Join("\n\n", Rendered(Retrieve(binding, payload.question), templates.file)), payload.chatHistory))
    {
      Generate(State(payload.question, payload.chatHistory, Retrieve(binding, payload.question), ""))
    }

    /** The runtime runs the compiled workflow: whatever the binding and the payload, it streams that run. */
    ghost predicate StreamsWorkflow()
    {
      forall binding: Option<Retriever>, payload: Payload ::
        StreamOfRun(runtime(binding, payload), Retrieve(binding, payload.question), RunWorkflow(binding, payload))
    }

    /** `set_retriever`: bind the retriever over the given chunk list and store; a failure leaves the binding as it was. */
    method SetRetriever(documentPath: string, vectorPath: string) returns (outcome: Outcome)
      modifies this
      ensures var r := ingestor.GetRetriever(documentPath, vectorPath);
        && (r.Ok? ==> outcome == Done && retriever == Some(r.value))
        && (r.Err? ==> outcome == Failed(r.error) && retriever == old(retriever))
    {
      var r := ingestor.GetRetriever(documentPath, vectorPath);
      if r.Err? {
        return Failed(r.error);
      }
      retriever := Some(r.value);
      outcome := Done;
    }

    /** What the runtime streams for `prompt` over `history`, under the current binding. */
    function ModelStream(prompt: string, history: seq<Message>): Stream
      reads this
    {
      runtime(retriever, Payload(prompt, MapHistory(history)))
    }

    /** The events of a turn for `prompt` over `history`, as the runtime streams them. */
    function ModelEvents(prompt: string, history: seq<Message>): seq<Event>
      reads this
    {
      Translate(ModelStream(prompt, history).items)
    }

    /**
     * When the runtime runs the workflow, a turn's events open with the sources retrieved
     * for the prompt (none when no retriever is bound). When every source names its file,
     * chunk events follow and the last event is the model's reply to the prompt built from
     * the question, the formatted sources and the mapped history, and the stream finishes.
     * Otherwise `_generate` raises, the sources are the only event, and the stream raises
     * the missing-`source` error.
     */
    lemma ModelEventsOfWorkflow(prompt: string, history: seq<Message>)
      requires StreamsWorkflow()
      ensures var events := ModelEvents(prompt, history);
        var context := Retrieve(retriever, prompt);
        && events != []
        && events[0] == Sources(context)
        && (retriever.None? ==> events[0] == Sources([]))
        && (HasSources(context) ==>
              && ModelStream(prompt, history).ending == Done
              && |events| >= 2
              && events[|events| - 1] == FinalAnswer(chatModel(PromptFor(templates, prompt,
                   Join("\n\n", Rendered(context, templates.file)), MapHistory(history))))
              && forall j :: 0 < j < |events| - 1 ==> events[j].ChunkEvent?)
        && (!HasSources(context) ==>
              && events == [Sources(context)]
              && ModelStream(prompt, history).ending == Failed(MissingSourceMetadata))
    {
      var payload := Payload(prompt, MapHistory(history));
      var context := Retrieve(retriever, prompt);
      var run := RunWorkflow(retriever, payload);
      var stream := runtime(retriever, payload);
      assert StreamOfRun(stream, context, run);
      if run.Ok? {
        var fragments :| stream.items == WorkflowStream(context, fragments, run.value.answer);
        TranslateWorkflowStream(context, fragments, run.value.answer);
      } else {
        assert Translate(stream.items) == EventsOf(stream.items[0]) + Translate(stream.items[1..]);
      }
    }

    /**
     * A turn of `ask` when the runtime runs the workflow: the first pull yields the sources
     * retrieved for the prompt. When a source lacks its `source`, the next pull raises that
     * error and leaves the history as it was. Otherwise a caller who pulls to the end
     * receives every event, ending with the model's answer, and the history gains the
     * prompt and the answer with its thinking removed, or nothing when the strip raises.
     */
    lemma TurnOfWorkflow(prompt: string, history: seq<Message>, pulls: nat)
      requires StreamsWorkflow()
      ensures var events := ModelEvents(prompt, history);
        var t := AskRun(prompt, events, ModelStream(prompt, history).ending, history, pulls);
        var context := Retrieve(retriever, prompt);
        && (pulls > 0 ==> t.yielded != [] && t.yielded[0] == Sources(context))
        && (!HasSources(context) && pulls > 1 ==>
              t == Turn([Sources(context)], history, Failed(MissingSourceMetadata)))
        && (HasSources(context) && pulls > |events| ==>
              var answer := chatModel(PromptFor(templates, prompt, Join("\n\n", Rendered(context, templates.file)), MapHistory(history)));
              && t.yielded == events
              && t.yielded[|t.yielded| - 1] == FinalAnswer(answer)
              && (RemoveThinking(answer).Ok? ==>
                    t.outcome == Done && t.history == history + Exchange(prompt, RemoveThinking(answer).value))
              && (RemoveThinking(answer).Err? ==>
                    t.outcome == Failed(MissingCloseTag) && t.history == history))
    {
      var events := ModelEvents(prompt, history);
      var ending := ModelStream(prompt, history).ending;
      var context := Retrieve(retriever, prompt);
      ModelEventsOfWorkflow(prompt, history);
      if pulls == 1 {
        AskSuspends(prompt, events, ending, history);
      } else if pulls > 1 {
        AskStep(prompt, events, ending, history, pulls);
        if !HasSources(context) {
          assert events[1..] == [];
          AskRunsOut(prompt, ending, history, pulls - 1);
        }
      }
      if HasSources(context) && pulls > |events| {
        var payload := Payload(prompt, MapHistory(history));
        var run := RunWorkflow(retriever, payload);
        var stream := runtime(retriever, payload);
        assert StreamOfRun(stream, context, run);
        var fragments :| stream.items == WorkflowStream(context, fragments, run.value.answer);
        TranslateWorkflowStream(context, fragments, run.value.answer);
        CompletedTurn(prompt, context, fragments, run.value.answer, ending, history, pulls);
      }
    }

    /** `_ask_model`: stream the workflow with the mapped history and translate each item. */
    method AskModel(prompt: string, history: seq<Message>) returns (events: seq<Event>, ending: Outcome)
      ensures events == ModelEvents(prompt, history)
      ensures ending == ModelStream(prompt, history).ending
    {
      var stream := runtime(retriever, Payload(prompt, MapHistory(history)));
      var items := stream.items;
      events := [];
      var i := 0;
      while i < |items|
        invariant 0 <= i <= |items|
        invariant events == Translate(items[..i])
      {
        assert items[..i + 1] == items[..i] + [items[i]];
        TranslateSnoc(items[..i], items[i]);
        match items[i] {
          case MessagesItem(fragment) =>
            events := events + [ChunkEvent(fragment)];
          case UpdatesItem(retrieved, generated) =>
            if retrieved.Some? {
              events := events + [Sources(retrieved.value)];
            }
            if generated.Some? {
              events := events + [FinalAnswer(generated.value)];
            }
        }
        i := i + 1;
      }
      assert items[..i] == items;
      ending := stream.ending;
    }

    /** The code after `yield event` in `ask`. */
    method ResumeAfter(prompt: string, event: Event, history: ChatHistory) returns (outcome: Outcome)
      modifies history
      ensures var r := Resume(prompt, event, old(history.messages));
        && (r.Ok? ==> outcome == Done && history.messages == r.value)
        && (r.Err? ==> outcome == Failed(MissingCloseTag) && history.messages == old(history.messages))
    {
      outcome := Done;
      if event.FinalAnswer? {
        var response := RemoveThinking(event.content);
        if response.Err? {
          return Failed(response.error);
        }
        history.Append(Message(User, prompt));
        history.Append(Message(Assistant, response.value));
      }
    }

    /** One pass of `ask`'s loop: yield event `i`, then, if the caller pulls again, resume after it. */
    method AskPull(prompt: string, events: seq<Event>, ending: Outcome, ghost start: seq<Message>, pulls: nat,
                   i: nat, yielded: seq<Event>, history: ChatHistory) returns (received: seq<Event>, outcome: Outcome, stop: bool)
      requires i < |events| && i < pulls
      requires AskRun(prompt, events, ending, start, pulls)
        == Prefixed(yielded, AskRun(prompt, events[i..], ending, history.messages, pulls - i))
      modifies history
      ensures stop ==> AskRun(prompt, events, ending, start, pulls) == Turn(received, history.messages, outcome)
      ensures !stop ==> outcome == Done
      ensures !stop ==>
        AskRun(prompt, events, ending, start, pulls)
        == Prefixed(received, AskRun(prompt, events[i + 1..], ending, history.messages, pulls - i - 1))
    {
      AskAt(prompt, events, ending, i, history.messages, pulls, yielded);
      var event := events[i];
      received := yielded + [event];
      if i + 1 == pulls {
        return received, Done, true;
      }
      outcome := ResumeAfter(prompt, event, history);
      stop := outcome.Failed?;
    }

    /** `ask`'s loop over the events of the stream, for a caller that pulls `pulls` times. */
    method AskLoop(prompt: string, events: seq<Event>, ending: Outcome, history: ChatHistory, pulls: nat)
      returns (yielded: seq<Event>, outcome: Outcome)
      requires pulls > 0
      modifies history
      ensures Turn(yielded, history.messages, outcome) == AskRun(prompt, events, ending, old(history.messages), pulls)
    {
      yielded := [];
      ghost var start := history.messages;
      assert events[0..] == events;
      var i := 0;
      while i < |events| && i < pulls
        invariant 0 <= i <= |events| && i <= pulls
        invariant AskRun(prompt, events, ending, start, pulls) == Prefixed(yielded, AskRun(prompt, events[i..], ending, history.messages, pulls - i))
      {
        var stop;
        yielded, outcome, stop := AskPull(prompt, events, ending, start, pulls, i, yielded, history);
        if stop {
          return;
        }
        i := i + 1;
      }
      if i == pulls {
        outcome := Done;
      } else {
        assert events[i..] == [];
        AskRunsOut(prompt, ending, history.messages, pulls - i);
        outcome := ending;
      }
      assert yielded + [] == yielded;
    }

    /** `ask`, pulled `pulls` times: the events the caller receives, and what happens to its history. */
    method Ask(prompt: string, history: ChatHistory, pulls: nat) returns (yielded: seq<Event>, outcome: Outcome)
      modifies history
      ensures Turn(yielded, history.messages, outcome)
        == AskRun(prompt, ModelEvents(prompt, old(history.messages)), ModelStream(prompt, old(history.messages)).ending,
                  old(history.messages), pulls)
    {
      if pulls == 0 {
        return [], Done;
      }
      var events, ending := AskModel(prompt, history.messages);
      yielded, outcome := AskLoop(prompt, events, ending, history, pulls);
    }
  }
}
