/**
 * The chat page: a log of user and assistant turns, the text box, and a
 * loading flag. Submitting is asynchronous in the page; here it is split into
 * `Begin`, which runs up to the request, and `Settle`, which runs when the
 * request has completed, each an atomic step. Message ids and timestamps come
 * from the clock and are not modelled.
 */
module Conversation {
  import opened Wrappers
  import opened Text
  import opened Schema
  import Credentials
  import Client

  datatype Role = User | Assistant

  datatype Message = Message(role: Role, content: string, suggestions: Option<seq<FoodSuggestion>>)

  const Apology: string := "Sorry, I couldn't get suggestions. " + "Please make sure the backend is running."

  const CountIntro: string := "Here are "
  const CountTail: string := " delicious suggestions for you:"

  /** The text of a successful reply announcing `n` suggestions: `n` can be read back from the numeral between the fixed words. */
  function SuccessText(n: nat): (t: string)
    ensures StartsWith(t, CountIntro) && EndsWith(t, CountTail)
    ensures |CountIntro| + |CountTail| < |t|
    ensures IsDigits(t[|CountIntro|..|t| - |CountTail|])
    ensures DigitsValue(t[|CountIntro|..|t| - |CountTail|]) == n
    ensures t[|CountIntro|] == '0' ==> n == 0 && |t| == |CountIntro| + 1 + |CountTail|
  {
    var digits := NatToString(n);
    NatToStringRoundTrip(n);
    var t := CountIntro + digits + CountTail;
    assert t[|CountIntro|..|t| - |CountTail|] == digits;
    t
  }

  /** The two kinds of assistant text never coincide, and the count can be read back from a success text. */
  lemma {:induction false} SuccessTextInjective(m: nat, n: nat)
    ensures SuccessText(m) != Apology
    ensures SuccessText(m) == SuccessText(n) ==> m == n
  {
    var a, b := SuccessText(m), SuccessText(n);
    assert a[0] == 'H';
    assert Apology[0] == 'S';
    if a == b {
      var tail := " delicious suggestions for you:";
      assert |NatToString(m)| == |NatToString(n)|;
      assert NatToString(m) == a[9..|a| - |tail|];
      assert NatToString(n) == b[9..|b| - |tail|];
      NatToStringInjective(m, n);
    }
  }

  lemma SuccessTextForTwo()
    ensures SuccessText(2) == "Here are " + "2" + " delicious suggestions for you:"
  {
    assert NatToString(2) == "2";
  }

  /** The user's turn carries the text exactly as typed. */
  function UserTurn(text: string): (m: Message)
    ensures m.role == User && m.content == text && WellFormed(m)
  {
    Message(User, text, None)
  }

  /** The assistant's turn for the outcome of a request. */
  function Reply(outcome: Result<SuggestionResponse, string>): (m: Message)
    ensures m.role == Assistant
    ensures outcome.Success? <==> m.suggestions.Some?
  {
    match outcome
    case Success(response) =>
      Message(Assistant, SuccessText(|response.suggestions|), Some(response.suggestions))
    case Failure(_) =>
      Message(Assistant, Apology, None)
  }

  /**
   * What a reader of the log can tell from a reply: whether the request
   * succeeded, and if so the suggestions in their order and their number.
   */
  lemma ReplyReveals(outcome: Result<SuggestionResponse, string>)
    ensures outcome.Failure? <==> Reply(outcome).content == Apology
    ensures outcome.Failure? ==> Reply(outcome).suggestions == None
    ensures outcome.Success? ==> Reply(outcome).suggestions == Some(outcome.value.suggestions)
    ensures outcome.Success? ==> Reply(outcome).content == SuccessText(|outcome.value.suggestions|)
  {
    if outcome.Success? {
      SuccessTextInjective(|outcome.value.suggestions|, 0);
    }
  }

  /** A turn the page can produce: a plain user turn, an apology, or a success text whose count matches its suggestions. */
  predicate WellFormed(m: Message) {
    match m.role
    case User => m.suggestions.None?
    case Assistant =>
      match m.suggestions
      case None => m.content == Apology
      case Some(s) => m.content == SuccessText(|s|)
  }

  lemma ReplyWellFormed(outcome: Result<SuggestionResponse, string>)
    ensures WellFormed(Reply(outcome))
  {
  }

  /** Every turn of a log is well formed. */
  predicate WellFormedLog(log: seq<Message>) {
    forall i :: 0 <= i < |log| ==> WellFormed(log[i])
  }

  lemma WellFormedAppend(log: seq<Message>, m: Message)
    requires WellFormedLog(log) && WellFormed(m)
    ensures WellFormedLog(log + [m])
  {
    assert forall i :: 0 <= i < |log| ==> (log + [m])[i] == log[i];
  }

  class Chat {
    var messages: seq<Message>
    var input: string
    var isLoading: bool

    ghost predicate Valid()
      reads this
    {
      WellFormedLog(messages)
    }

    constructor ()
      ensures Valid()
      ensures messages == [] && input == "" && !isLoading
    {
      messages := [];
      input := "";
      isLoading := false;
    }

    /**
     * Whether the Send button is enabled, the same test the submit handler
     * applies first: some non-whitespace input, and no request outstanding.
     */
    function CanSubmit(isSpace: char -> bool): (ok: bool)
      reads this
      ensures ok <==> !isLoading && exists i :: 0 <= i < |input| && !isSpace(input[i])
    {
      !Blank(input, isSpace) && !isLoading
    }

    /** Typing into the text box, or one of the preset prompts filling it. */
    method EditInput(text: string)
      requires Valid()
      modifies this`input
      ensures Valid() && input == text
    {
      input := text;
    }

    /**
     * The part of the submit handler before the request. A rejected submit
     * (blank input, or a request outstanding) changes nothing and issues no
     * request. An accepted one appends the user turn with the untrimmed text,
     * empties the box, sets the loading flag, and issues the request with the
     * text that was typed.
     */
    method Begin(isSpace: char -> bool) returns (request: Option<string>)
      requires Valid()
      modifies this
      ensures Valid()
      ensures request.Some? <==> !old(isLoading) && !AllSpace(old(input), isSpace)
      ensures request.None? ==> messages == old(messages) && input == old(input) && isLoading == old(isLoading)
      ensures request.Some? ==> request.value == old(input)
      ensures request.Some? ==> messages == old(messages) + [UserTurn(old(input))]
      ensures request.Some? ==> input == "" && isLoading
    {
      if Blank(input, isSpace) || isLoading {
        return None;
      }
      request := Some(input);
      Accept();
    }

    /** An accepted submit: the user turn with the text as typed, an empty box, and the loading flag. */
    method Accept()
      requires Valid()
      modifies this
      ensures Valid()
      ensures messages == old(messages) + [UserTurn(old(input))] && input == "" && isLoading
    {
      WellFormedAppend(messages, UserTurn(input));
      messages := messages + [UserTurn(input)];
      input := "";
      isLoading := true;
    }

    /**
     * The part after the request: one assistant turn for its outcome, then
     * the loading flag cleared whatever the outcome. The box is left alone.
     */
    method Settle(outcome: Result<SuggestionResponse, string>)
      requires Valid() && isLoading
      modifies this`messages, this`isLoading
      ensures Valid()
      ensures messages == old(messages) + [Reply(outcome)]
      ensures !isLoading
    {
      WellFormedAppend(messages, Reply(outcome));
      messages := messages + [Reply(outcome)];
      isLoading := false;
    }

    /** "New chat": empty log and empty box, whatever came before; an outstanding request stays outstanding. */
    method NewChat()
      requires Valid()
      modifies this`messages, this`input
      ensures Valid()
      ensures messages == [] && input == ""
    {
      messages := [];
      input := "";
    }
  }

  /**
   * The part of the submit handler from the request on: the request for the
   * typed text with the stored credentials, then the settlement of its outcome.
   */
  method Request(chat: Chat, text: string, store: Credentials.Store,
                 env: Option<string>, fetched: Client.FetchResult)
    returns (sent: Client.HttpRequest)
    requires chat.Valid() && chat.isLoading
    modifies chat`messages, chat`isLoading
    ensures chat.Valid()
    ensures sent.verb == "POST" && sent.url == Client.SuggestUrl(env)
    ensures Client.ProperHeaders(store, sent.headers)
    ensures sent.body == Client.Body(text, None, None)
    ensures chat.messages == old(chat.messages) + [Reply(Client.ReadResponse(fetched))] && !chat.isLoading
  {
    var result;
    sent, result := Client.GetSuggestions(store, env, text, None, None, fetched);
    chat.Settle(result);
  }

  /**
   * The whole submit handler with the network outcome given: nothing happens
   * when the guard fails; otherwise exactly one user turn and then exactly one
   * assistant turn are appended, the request carries the typed text and the
   * stored credentials, and the page ends up idle with an empty box.
   */
  method HandleSubmit(chat: Chat, isSpace: char -> bool, store: Credentials.Store,
                      env: Option<string>, fetched: Client.FetchResult)
    returns (sent: Option<Client.HttpRequest>)
    requires chat.Valid()
    modifies chat
    ensures chat.Valid()
    ensures sent.Some? <==> !old(chat.isLoading) && !AllSpace(old(chat.input), isSpace)
    ensures sent.None? ==>
      chat.messages == old(chat.messages) && chat.input == old(chat.input) && chat.isLoading == old(chat.isLoading)
    ensures sent.Some? ==>
      && sent.value.verb == "POST"
      && sent.value.url == Client.SuggestUrl(env)
      && Client.ProperHeaders(store, sent.value.headers)
      && sent.value.body == Client.Body(old(chat.input), None, None)
    ensures sent.Some? ==>
      && chat.messages == old(chat.messages) + [UserTurn(old(chat.input))] + [Reply(Client.ReadResponse(fetched))]
      && chat.input == ""
      && !chat.isLoading
  {
    var text := chat.Begin(isSpace);
    if text.None? {
      return None;
    }
    var request := Request(chat, text.value, store, env, fetched);
    sent := Some(request);
  }
}
