/**
 * The mock chat panel: each non-blank send hides the intro panel and
 * appends the user's text together with a canned response.
 */
module ChatInterface {
  import opened Text

  datatype Kind = UserEntry | ResponseEntry

  /** A transcript entry `{text, type}`. */
  datatype Entry = Entry(text: string, kind: Kind)

  const ResponseText: string := "This is a response"

  /**
   * A transcript built only by sends: user entries (never blank) at even
   * positions, each followed by the canned response.
   */
  ghost predicate Exchanges(ms: seq<Entry>) {
    && |ms| % 2 == 0
    && forall i :: 0 <= i < |ms| ==>
      if i % 2 == 0 then ms[i].kind == UserEntry && !Blank(ms[i].text)
      else ms[i] == Entry(ResponseText, ResponseEntry)
  }

  /** One more send keeps a transcript made of exchanges. */
  lemma ExchangeAppended(ms: seq<Entry>, text: string)
    requires Exchanges(ms) && !Blank(text)
    ensures Exchanges(ms + [Entry(text, UserEntry), Entry(ResponseText, ResponseEntry)])
  {
  }

  /** The state of the mock chat component. */
  class Component {
    var isContentVisible: bool
    var messages: seq<Entry>
    var inputValue: string

    /** The intro panel shows exactly until the first exchange. */
    ghost predicate Valid()
      reads this
    {
      Exchanges(messages) && (isContentVisible <==> messages == [])
    }

    constructor ()
      ensures Valid()
      ensures isContentVisible && messages == [] && inputValue == ""
    {
      isContentVisible, messages, inputValue := true, [], "";
    }

    /** The input's change handler. */
    method HandleInputChange(value: string)
      modifies this`inputValue
      ensures inputValue == value
    {
      inputValue := value;
    }

    /** A send of non-blank input hides the panel, appends the exchange and clears the input. */
    method HandleSendMessage()
      requires Valid()
      modifies this
      ensures Valid()
      ensures Blank(old(inputValue)) ==>
        messages == old(messages) && inputValue == old(inputValue) && isContentVisible == old(isContentVisible)
      ensures !Blank(old(inputValue)) ==>
        && messages == old(messages) + [Entry(old(inputValue), UserEntry), Entry(ResponseText, ResponseEntry)]
        && inputValue == ""
        && !isContentVisible
      ensures !old(isContentVisible) ==> !isContentVisible
    {
      TrimEmptyIffBlank(inputValue);
      if Trim(inputValue) != "" {
        isContentVisible := false;
        var newMessage := inputValue;
        var responseMessage := ResponseText;
        ExchangeAppended(messages, newMessage);
        messages := messages + [Entry(newMessage, UserEntry), Entry(responseMessage, ResponseEntry)];
        inputValue := "";
      }
    }
  }
}
