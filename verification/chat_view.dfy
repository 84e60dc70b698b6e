/**
 * The send handler of `src/components/Chat.tsx` as a state machine over
 * `{messages, input, isLoading, error, selectedModel}`. One send is an
 * atomic `Begin` (lines 44-53) followed by an atomic `Complete` (lines
 * 65-76) once the fetch settles.
 */
module ChatView {
  import opened Js
  import opened Upstream
  import ChatApi
  import ExpressChat
  import NetlifyChat
  import Registry
  import ModelSelector
  import LegacyChatService

  const DefaultSelectedModel: string := "anthropic/claude-3.5-sonnet"
  const SendFailed: string := "Failed to send message"

  datatype View = View(
    messages: seq<Json>,
    input: string,
    isLoading: bool,
    error: Option<string>,
    selectedModel: string)

  function Initial(): View
  {
    View([], "", false, None, DefaultSelectedModel)
  }

  /** The characters `String.prototype.trim` removes: ECMAScript white
      space and line terminators. */
  predicate IsJsWhitespace(c: char)
  {
    c in {'\t', '\n', '\U{B}', '\U{C}', '\r', ' ', '\U{A0}', '\U{1680}',
          '\U{2000}', '\U{2001}', '\U{2002}', '\U{2003}', '\U{2004}', '\U{2005}',
          '\U{2006}', '\U{2007}', '\U{2008}', '\U{2009}', '\U{200A}',
          '\U{2028}', '\U{2029}', '\U{202F}', '\U{205F}', '\U{3000}', '\U{FEFF}'}
  }

  function TrimStart(s: string): string
  {
    if |s| > 0 && IsJsWhitespace(s[0]) then TrimStart(s[1..]) else s
  }

  function TrimEnd(s: string): string
  {
    if |s| > 0 && IsJsWhitespace(s[|s| - 1]) then TrimEnd(s[..|s| - 1]) else s
  }

  /** `s.trim()` */
  function Trim(s: string): string
  {
    TrimStart(TrimEnd(s))
  }

  predicate Blank(s: string)
  {
    forall i :: 0 <= i < |s| ==> IsJsWhitespace(s[i])
  }

  lemma {:induction false} TrimStartEmptyIffBlank(s: string)
    ensures TrimStart(s) == "" <==> Blank(s)
  {
    if |s| > 0 && IsJsWhitespace(s[0]) {
      TrimStartEmptyIffBlank(s[1..]);
      assert Blank(s) <==> Blank(s[1..]) by {
        if Blank(s[1..]) {
          forall i | 0 <= i < |s| ensures IsJsWhitespace(s[i]) {
            if i > 0 { assert s[i] == s[1..][i - 1]; }
          }
        }
      }
    }
  }

  lemma {:induction false} TrimEndEmptyIffBlank(s: string)
    ensures TrimEnd(s) == "" <==> Blank(s)
    ensures TrimEnd(s) != "" ==> !IsJsWhitespace(TrimEnd(s)[|TrimEnd(s)| - 1])
  {
    if |s| > 0 && IsJsWhitespace(s[|s| - 1]) {
      var p := s[..|s| - 1];
      TrimEndEmptyIffBlank(p);
      assert Blank(s) <==> Blank(p) by {
        if Blank(p) {
          forall i | 0 <= i < |s| ensures IsJsWhitespace(s[i]) {
            if i < |s| - 1 { assert s[i] == p[i]; }
          }
        }
      }
    }
  }

  /** `!input.trim()` holds exactly for inputs made only of white space. */
  lemma {:induction false} TrimEmptyIffBlank(s: string)
    ensures Trim(s) == "" <==> Blank(s)
  {
    var t := TrimEnd(s);
    TrimEndEmptyIffBlank(s);
    TrimStartEmptyIffBlank(t);
    if t != "" {
      assert !Blank(t) by {
        assert !IsJsWhitespace(t[|t| - 1]);
      }
    }
  }

  /** `{ role: 'user', content: input }` */
  function UserMessage(input: string): Json
  {
    Turn("user", Some(JStr(input)))
  }

  /** The JSON body of the fetch to `/api/chat`. */
  function PostBody(messages: seq<Json>, model: string): Json
  {
    JObj(map["messages" := JArr(messages), "model" := JStr(model)])
  }

  /** The view right after the send handler starts, and the body it posts
      (`None` when the handler returns early). */
  datatype Begun = Begun(view: View, post: Option<Json>)

  /** Lines 44-53. The message is appended as typed, untrimmed. */
  function Begin(v: View): (r: Begun)
    ensures Blank(v.input) || v.isLoading ==> r == Begun(v, None)
    ensures !Blank(v.input) && !v.isLoading ==>
      && r.view.messages == v.messages + [UserMessage(v.input)]
      && r.view.input == ""
      && r.view.error.None?
      && r.view.isLoading
      && r.view.selectedModel == v.selectedModel
      && r.post == Some(PostBody(r.view.messages, v.selectedModel))
  {
    TrimEmptyIffBlank(v.input);
    if Trim(v.input) == "" || v.isLoading then Begun(v, None)
    else
      var user := UserMessage(v.input);
      var v' := v.(messages := v.messages + [user], input := "", error := None, isLoading := true);
      Begun(v', Some(PostBody(v'.messages, v.selectedModel)))
  }

  /** How the fetch settles: an ok response and its parsed JSON, a non-ok
      response, or a thrown error (network failure, unparsable JSON). */
  datatype Outcome = Received(data: Json) | NotOk | Threw

  /** Lines 65-76: the reply object is appended as received; on failure
      nothing is appended and the error text is set. */
  function Complete(v: View, o: Outcome): (r: View)
    ensures !r.isLoading
    ensures r.input == v.input && r.selectedModel == v.selectedModel
    ensures o.Received? ==> r.messages == v.messages + [o.data] && r.error == v.error
    ensures !o.Received? ==> r.messages == v.messages && r.error == Some(SendFailed)
  {
    match o
    case Received(data) => v.(messages := v.messages + [data], isLoading := false)
    case _ => v.(error := Some(SendFailed), isLoading := false)
  }

  /** `onModelChange`: picking a model touches nothing else. */
  function SelectModel(v: View, modelId: string): (r: View)
    ensures r.selectedModel == modelId
    ensures r.messages == v.messages && r.input == v.input && r.isLoading == v.isLoading && r.error == v.error
  {
    v.(selectedModel := modelId)
  }

  /** A whole exchange: the user turn always stays; the reply follows it
      directly on success; on failure the error is set and nothing else is
      added; either way loading ends and the input is empty. */
  lemma Exchange(v: View, o: Outcome)
    requires !Blank(v.input) && !v.isLoading
    ensures var r := Complete(Begin(v).view, o);
      && !r.isLoading && r.input == ""
      && (o.Received? ==> r.messages == v.messages + [UserMessage(v.input), o.data] && r.error.None?)
      && (!o.Received? ==> r.messages == v.messages + [UserMessage(v.input)] && r.error == Some(SendFailed))
  {
  }

  /** While a send is in flight, a second send changes nothing. */
  lemma NoSendWhileLoading(v: View)
    requires v.isLoading
    ensures Begin(v) == Begun(v, None)
  {
  }

  /** The two front ends treat a failed send differently: this view keeps
      the user's turn, while the session of `chatService.js` leaves its
      history exactly as it was. */
  lemma FailureSemanticsDiffer(v: View, o: Outcome, s: LegacyChatService.Session, message: string,
                               files: seq<LegacyChatService.File>, call: Request -> Answer)
    requires !Blank(v.input) && !v.isLoading && !o.Received?
    requires LegacyChatService.SendMessage(s, message, files, call).reply.Err?
    ensures |Complete(Begin(v).view, o).messages| == |v.messages| + 1
    ensures LegacyChatService.SendMessage(s, message, files, call).session.history == s.history
  {
  }

  /** The first post from a fresh view is well formed and names the
      default selection. */
  lemma {:induction false} FirstPostWellFormed(input: string)
    requires !Blank(input)
    ensures var post := Begin(Initial().(input := input)).post;
      && post.Some? && post.value.JObj?
      && ChatApi.ShapeOk(post.value)
      && ChatApi.ModelId(post.value) == DefaultSelectedModel
  {
    var post := Begin(Initial().(input := input)).post.value;
    var msgs := [UserMessage(input)];
    assert Begin(Initial().(input := input)).view.messages == [] + msgs == msgs;
    assert post == PostBody(msgs, DefaultSelectedModel);
    assert ChatApi.MessageOk(msgs[0]);
  }

  /** A well-formed post naming an id the registry lacks is answered with
      400 `Invalid model ID` by both server routes. */
  lemma UnregisteredModelRejected(post: Json, rt: Registry.Runtime, call: Request -> Answer)
    requires post.JObj? && ChatApi.ShapeOk(post) && ChatApi.ModelId(post) !in Registry.ModelConfigs
    ensures ExpressChat.HandleChat(Some(post), true, rt, call)
         == ChatApi.Response(400, map[], ChatApi.UnknownModel(ChatApi.ModelId(post)))
    ensures NetlifyChat.HandleParsed(post, rt, call)
         == ChatApi.Response(400, NetlifyChat.Cors, ChatApi.UnknownModel(ChatApi.ModelId(post)))
  {
  }

  /** The registry has no entry under the default selection. */
  lemma DefaultNotRegistered()
    ensures DefaultSelectedModel !in Registry.ModelConfigs
  {
  }

  /** The picker's table does not list the default selection either. */
  lemma DefaultNotOffered()
    ensures ModelSelector.Find(ModelSelector.Models, DefaultSelectedModel).None?
  {
    assert forall i :: 0 <= i < |ModelSelector.Models| ==> ModelSelector.Models[i].id != DefaultSelectedModel;
  }

  /** The default selection is not a registry id, so the first send from
      a fresh view is rejected with 400 `Invalid model ID` by both server
      routes. */
  lemma {:induction false} DefaultSelectionRejected(input: string, rt: Registry.Runtime, call: Request -> Answer)
    requires !Blank(input)
    ensures DefaultSelectedModel !in Registry.ModelConfigs
    ensures var post := Begin(Initial().(input := input)).post.value;
      && ExpressChat.HandleChat(Some(post), true, rt, call)
         == ChatApi.Response(400, map[], ChatApi.UnknownModel(DefaultSelectedModel))
      && NetlifyChat.HandleParsed(post, rt, call)
         == ChatApi.Response(400, NetlifyChat.Cors, ChatApi.UnknownModel(DefaultSelectedModel))
  {
    FirstPostWellFormed(input);
    DefaultNotRegistered();
    var post := Begin(Initial().(input := input)).post.value;
    UnregisteredModelRejected(post, rt, call);
  }
}
