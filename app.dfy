/**
 * The conversation held by the application's root component: the list of
 * turns shown on screen, the loading flag, and the send cycle that appends
 * the user's turn and streams the model's reply into the last turn.
 */
module App {
  import opened Types
  import opened ChatInputComponent

  /** The model turn the conversation is seeded with. */
  const WelcomeText: string := "Welcome to the Public Sector AI Assistant. How can I assist you with matters of governance, policy, or public administration today?"

  /** The model turn appended when sending or streaming fails. */
  const ApologyText: string := "I'm sorry, but I encountered an error while processing your request. Please try again later."

  /** The text of the model turn before its first fragment arrives. */
  const PlaceholderText: string := "..."

  /**
   * What the chat session does with one message: either the request fails
   * before a stream exists, or the stream yields `fragments` in order and
   * then either ends or fails.
   */
  datatype Stream = FailsToOpen | Yields(fragments: seq<string>, thenFails: bool)

  // ---------------------------------------------------------------------
  // Specification functions
  // ---------------------------------------------------------------------

  /**
   * The running response text after the given fragments, appended in order.
   * It is empty before any fragment, and never shorter than the newest one.
   */
  function Concat(fragments: seq<string>): (r: string)
    ensures fragments == [] ==> r == ""
    ensures fragments != [] ==> |fragments[|fragments| - 1]| <= |r|
  {
    if fragments == [] then ""
    else Concat(fragments[..|fragments| - 1]) + fragments[|fragments| - 1]
  }

  /** Accumulating fragments in two batches gives the same text as in one. */
  lemma {:induction false} ConcatAppend(a: seq<string>, b: seq<string>)
    ensures Concat(a + b) == Concat(a) + Concat(b)
  {
    if b == [] {
      assert a + b == a;
    } else {
      var b' := b[..|b| - 1];
      assert (a + b)[..|a + b| - 1] == a + b';
      ConcatAppend(a, b');
    }
  }

  /**
   * The displayed reply only grows by extension: the text after i fragments
   * is a prefix of the text after j >= i fragments, and what follows it is
   * exactly fragments i .. j-1.
   */
  lemma ConcatGrowsByExtension(fragments: seq<string>, i: nat, j: nat)
    requires i <= j <= |fragments|
    ensures Concat(fragments[..j]) == Concat(fragments[..i]) + Concat(fragments[i..j])
    ensures Concat(fragments[..i]) <= Concat(fragments[..j])
  {
    assert fragments[..j] == fragments[..i] + fragments[i..j];
    ConcatAppend(fragments[..i], fragments[i..j]);
  }

  /**
   * The list with its last element overwritten by `m`; length and every
   * earlier element are kept. On an empty list the write lands on index -1,
   * which is not an element, so the list is unchanged.
   */
  function ReplaceLast(h: seq<Msg>, m: Msg): (r: seq<Msg>)
    ensures |r| == |h|
    ensures forall i :: 0 <= i < |h| - 1 ==> r[i] == h[i]
    ensures |h| > 0 ==> r[|h| - 1] == m
  {
    if |h| == 0 then h else h[..|h| - 1] + [m]
  }

  /**
   * The history after the first k fragments have each been folded into the
   * running text and written over the last turn, one update per fragment.
   */
  function AfterChunks(h: seq<Msg>, fragments: seq<string>, k: nat): (r: seq<Msg>)
    requires k <= |fragments|
    ensures |r| == |h|
    ensures k > 0 && |h| > 0 ==> r[|h| - 1] == Msg(MODEL, Concat(fragments[..k]))
  {
    if k == 0 then h
    else ReplaceLast(AfterChunks(h, fragments, k - 1), Msg(MODEL, Concat(fragments[..k])))
  }

  /**
   * After k > 0 chunk updates the turns before the last are untouched and the
   * last is a model turn showing the first k fragments concatenated in order.
   */
  lemma {:induction false} AfterChunksShowsConcat(h: seq<Msg>, fragments: seq<string>, k: nat)
    requires |h| > 0 && k <= |fragments|
    ensures AfterChunks(h, fragments, k)
      == if k == 0 then h else h[..|h| - 1] + [Msg(MODEL, Concat(fragments[..k]))]
  {
    if k > 1 {
      AfterChunksShowsConcat(h, fragments, k - 1);
      var prev := AfterChunks(h, fragments, k - 1);
      assert prev[..|prev| - 1] == h[..|h| - 1];
    }
  }

  /** The model turn a stream that yielded `fragments` leaves behind. */
  function ReplyTurn(fragments: seq<string>): Msg
  {
    Msg(MODEL, if fragments == [] then PlaceholderText else Concat(fragments))
  }

  /**
   * The history once a send of `message` over `stream` has settled, starting
   * from `h`: the user's turn, then the reply turn if the stream opened, then
   * the apology if anything failed.
   */
  function Settled(h: seq<Msg>, message: string, stream: Stream): seq<Msg>
  {
    match stream
    case FailsToOpen => h + [Msg(USER, message), Msg(MODEL, ApologyText)]
    case Yields(fragments, thenFails) =>
      h + [Msg(USER, message), ReplyTurn(fragments)]
        + (if thenFails then [Msg(MODEL, ApologyText)] else [])
  }

  /**
   * The closed form agrees with the step-by-step updates: user turn,
   * placeholder, one overwrite of the last turn per fragment, apology.
   */
  lemma SettledIsStepwise(h: seq<Msg>, message: string, stream: Stream)
    ensures stream.FailsToOpen? ==>
      Settled(h, message, stream) == h + [Msg(USER, message)] + [Msg(MODEL, ApologyText)]
    ensures stream.Yields? ==>
      (var withPlaceholder := h + [Msg(USER, message)] + [Msg(MODEL, PlaceholderText)];
       var streamed := AfterChunks(withPlaceholder, stream.fragments, |stream.fragments|);
       Settled(h, message, stream)
         == if stream.thenFails then streamed + [Msg(MODEL, ApologyText)] else streamed)
  {
    if stream.Yields? {
      StreamedIsStepwise(h, message, stream.fragments);
    }
  }

  /**
   * Streaming every fragment over the placeholder leaves the user turn and
   * the reply turn after the unchanged earlier turns.
   */
  lemma StreamedIsStepwise(h: seq<Msg>, message: string, fragments: seq<string>)
    ensures AfterChunks(h + [Msg(USER, message)] + [Msg(MODEL, PlaceholderText)], fragments, |fragments|)
      == h + [Msg(USER, message), ReplyTurn(fragments)]
  {
    var sent := h + [Msg(USER, message)];
    var withPlaceholder := sent + [Msg(MODEL, PlaceholderText)];
    var n := |fragments|;
    AfterChunksShowsConcat(withPlaceholder, fragments, n);
    if n == 0 {
      assert withPlaceholder == h + [Msg(USER, message), ReplyTurn(fragments)];
    } else {
      assert withPlaceholder[..|withPlaceholder| - 1] == sent;
      assert fragments[..n] == fragments;
      assert sent + [ReplyTurn(fragments)] == h + [Msg(USER, message), ReplyTurn(fragments)];
    }
  }

  /**
   * A send appends exactly one user turn carrying the message, after every
   * earlier turn, which is left unchanged; every turn after it is a model turn.
   */
  lemma SendKeepsEarlierTurns(h: seq<Msg>, message: string, stream: Stream)
    ensures var r := Settled(h, message, stream);
      && |r| >= |h| + 2
      && r[..|h|] == h
      && r[|h|] == Msg(USER, message)
      && forall i :: |h| < i < |r| ==> r[i].role == MODEL
  {
  }

  /**
   * A stream that completes leaves the user turn and one model turn holding
   * every fragment concatenated in order, or the placeholder if it yielded
   * none.
   */
  lemma SuccessShowsWholeReply(h: seq<Msg>, message: string, fragments: seq<string>)
    ensures fragments != [] ==>
      Settled(h, message, Yields(fragments, false))
        == h + [Msg(USER, message), Msg(MODEL, Concat(fragments))]
    ensures fragments == [] ==>
      Settled(h, message, Yields(fragments, false))
        == h + [Msg(USER, message), Msg(MODEL, PlaceholderText)]
  {
  }

  /**
   * A failure appends the apology rather than overwriting: a failure before
   * the stream opens leaves user turn + apology, a failure mid-stream leaves
   * user turn + whatever was shown so far + apology.
   */
  lemma FailureAppendsApology(h: seq<Msg>, message: string, stream: Stream)
    requires stream.FailsToOpen? || stream.thenFails
    ensures var r := Settled(h, message, stream);
      && r[|r| - 1] == Msg(MODEL, ApologyText)
      && (stream.FailsToOpen? ==> |r| == |h| + 2)
      && (stream.Yields? ==> |r| == |h| + 3 && r[|h| + 1] == ReplyTurn(stream.fragments))
  {
  }

  /**
   * The typing indicator: shown while loading when the newest turn is the
   * user's. Reading the newest turn needs a non-empty history whenever the
   * flag is set.
   */
  function ShowsTypingIndicator(h: seq<Msg>, isLoading: bool): (shown: bool)
    requires !isLoading || |h| > 0
    ensures shown ==> isLoading
    ensures |h| > 0 && h[|h| - 1].role == MODEL ==> !shown
  {
    isLoading && h[|h| - 1].role == USER
  }

  /**
   * The indicator is shown exactly in the window after the user's turn is
   * appended and before a model turn follows it: never during streaming,
   * never after an apology is appended while the flag is still set, and
   * never once the send has settled.
   */
  lemma TypingIndicatorWindow(h: seq<Msg>, message: string, fragments: seq<string>, k: nat)
    requires k <= |fragments|
    ensures ShowsTypingIndicator(h + [Msg(USER, message)], true)
    ensures var withPlaceholder := h + [Msg(USER, message), Msg(MODEL, PlaceholderText)];
      !ShowsTypingIndicator(AfterChunks(withPlaceholder, fragments, k), true)
    ensures !ShowsTypingIndicator(h + [Msg(USER, message), Msg(MODEL, ApologyText)], true)
    ensures var withPlaceholder := h + [Msg(USER, message), Msg(MODEL, PlaceholderText)];
      !ShowsTypingIndicator(AfterChunks(withPlaceholder, fragments, k) + [Msg(MODEL, ApologyText)], true)
    ensures !ShowsTypingIndicator(h, false)
  {
    var withPlaceholder := h + [Msg(USER, message), Msg(MODEL, PlaceholderText)];
    AfterChunksShowsConcat(withPlaceholder, fragments, k);
  }

  // ---------------------------------------------------------------------
  // The root component's state
  // ---------------------------------------------------------------------

  /**
   * The root component's state: the turns on screen, the loading flag, and
   * whether a chat session has been created.
   */
  class Conversation {
    var history: seq<Msg>
    var isLoading: bool
    var hasSession: bool

    /** Whenever the flag is set there is a newest turn for the indicator to read. */
    ghost predicate Valid()
      reads this
    {
      isLoading ==> |history| > 0
    }

    /** First render: empty history, not loading, no session yet. */
    constructor ()
      ensures Valid()
      ensures history == [] && !isLoading && !hasSession
    {
      history, isLoading, hasSession := [], false, false;
    }

    /** The mount effect: create the session and seed the welcome turn. */
    method Init()
      requires Valid()
      modifies this
      ensures Valid()
      ensures hasSession && history == [Msg(MODEL, WelcomeText)] && isLoading == old(isLoading)
    {
      hasSession := true;
      history := [Msg(MODEL, WelcomeText)];
    }

    /**
     * Start of a send: without a session nothing happens; otherwise the
     * user's turn is appended and the flag set, which shows the indicator.
     * There is no check of the flag here.
     */
    method BeginSend(message: string) returns (proceed: bool)
      requires Valid()
      modifies this
      ensures Valid() && hasSession == old(hasSession)
      ensures proceed == old(hasSession)
      ensures proceed ==> history == old(history) + [Msg(USER, message)] && isLoading
      ensures proceed ==> ShowsTypingIndicator(history, isLoading)
      ensures !proceed ==> history == old(history) && isLoading == old(isLoading)
    {
      if !hasSession {
        return false;
      }
      history := history + [Msg(USER, message)];
      isLoading := true;
      return true;
    }

    /** The stream has opened: the placeholder model turn is appended. */
    method OpenStream()
      requires Valid()
      modifies this
      ensures Valid() && hasSession == old(hasSession) && isLoading == old(isLoading)
      ensures history == old(history) + [Msg(MODEL, PlaceholderText)]
      ensures !ShowsTypingIndicator(history, isLoading)
    {
      history := history + [Msg(MODEL, PlaceholderText)];
    }

    /** A fragment arrived: the last turn becomes a model turn showing `text`. */
    method OnChunk(text: string)
      requires Valid()
      modifies this
      ensures Valid() && hasSession == old(hasSession) && isLoading == old(isLoading)
      ensures history == ReplaceLast(old(history), Msg(MODEL, text))
    {
      if |history| > 0 {
        history := history[..|history| - 1] + [Msg(MODEL, text)];
      }
    }

    /** Something failed: the apology turn is appended. */
    method OnError()
      requires Valid()
      modifies this
      ensures Valid() && hasSession == old(hasSession) && isLoading == old(isLoading)
      ensures history == old(history) + [Msg(MODEL, ApologyText)]
      ensures !ShowsTypingIndicator(history, isLoading)
    {
      history := history + [Msg(MODEL, ApologyText)];
    }

    /** The send has settled, on every path: the flag is cleared. */
    method Finish()
      requires Valid()
      modifies this
      ensures Valid() && hasSession == old(hasSession) && history == old(history)
      ensures !isLoading
    {
      isLoading := false;
    }

    /**
     * The stream's fragments arrive in order: each is added to the running
     * text, which is then written over the last turn. The result is one
     * chunk update per fragment.
     */
    method StreamChunks(fragments: seq<string>)
      requires Valid()
      modifies this
      ensures Valid() && hasSession == old(hasSession) && isLoading == old(isLoading)
      ensures history == AfterChunks(old(history), fragments, |fragments|)
    {
      var responseText := "";
      var i := 0;
      while i < |fragments|
        invariant 0 <= i <= |fragments|
        invariant Valid() && hasSession == old(hasSession) && isLoading == old(isLoading)
        invariant responseText == Concat(fragments[..i])
        invariant history == AfterChunks(old(history), fragments, i)
      {
        assert fragments[..i + 1][..i] == fragments[..i];
        responseText := responseText + fragments[i];
        OnChunk(responseText);
        i := i + 1;
      }
    }

    /**
     * The whole send cycle for `message`, with the chat session's behaviour
     * given as `stream`. Without a session it is a no-op; otherwise the
     * history ends as `Settled` describes and the flag is cleared.
     */
    method HandleSendMessage(message: string, stream: Stream)
      requires Valid()
      modifies this
      ensures Valid() && hasSession == old(hasSession)
      ensures old(hasSession) ==> history == Settled(old(history), message, stream) && !isLoading
      ensures !old(hasSession) ==> history == old(history) && isLoading == old(isLoading)
    {
      var proceed := BeginSend(message);
      if !proceed {
        return;
      }
      match stream {
        case FailsToOpen =>
          OnError();
          assert history == Settled(old(history), message, stream);
        case Yields(fragments, thenFails) =>
          OpenStream();
          StreamChunks(fragments);
          StreamedIsStepwise(old(history), message, fragments);
          ghost var streamed := history;
          assert streamed == old(history) + [Msg(USER, message), ReplyTurn(fragments)];
          if thenFails {
            OnError();
            assert history == streamed + [Msg(MODEL, ApologyText)];
          }
          assert history == Settled(old(history), message, stream);
      }
      Finish();
    }
  }

  /**
   * Submitting the input box wires its guard to the conversation: the
   * trimmed text is sent only when it is non-empty and nothing is loading,
   * and then the field is cleared, even when there is no session and the
   * send does nothing.
   */
  method Submit(field: ChatInput, conv: Conversation, stream: Stream)
    requires conv.Valid()
    modifies field, conv
    ensures conv.Valid() && conv.hasSession == old(conv.hasSession)
    ensures var guard := Trim(old(field.input)) != "" && !old(conv.isLoading);
      && (guard ==> field.input == "")
      && (guard && old(conv.hasSession) ==>
            conv.history == Settled(old(conv.history), Trim(old(field.input)), stream) && !conv.isLoading)
      && (!guard || !old(conv.hasSession) ==>
            conv.history == old(conv.history) && conv.isLoading == old(conv.isLoading))
      && (!guard ==> field.input == old(field.input))
  {
    var sent := field.HandleSubmit(conv.isLoading);
    if sent.Some? {
      conv.HandleSendMessage(sent.value, stream);
    }
  }
}
