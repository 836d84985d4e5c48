/** The error accumulator of glymur's OpenJPEG 2 bindings: the library's
    error callback appends each message to the module-level list
    `ERROR_MSG_LST`, and `check_error`, run on the status of every wrapped
    call, turns a failure status into one exception carrying the messages
    gathered since the last failure, then empties the list. */
module OpenJpegErrors {
  import opened Common

  /** `OpenJPEGLibraryError(msg)`. */
  datatype LibraryError = LibraryError(message: string)

  const GenericFailure := "OpenJPEG function failure."

  /** The text `check_error` raises for the messages gathered so far. */
  function ErrorText(messages: seq<string>): (text: string)
    ensures messages == [] ==> text == GenericFailure
    ensures |messages| == 1 ==> text == messages[0]
  {
    if messages == [] then GenericFailure else JoinOn(messages, '\n')
  }

  /** One-line messages can be read back from the raised text, in the order
      they were reported. */
  lemma ErrorTextKeepsMessages(messages: seq<string>)
    requires messages != []
    requires forall i :: 0 <= i < |messages| ==> '\n' !in messages[i]
    ensures SplitOn(ErrorText(messages), '\n') == messages
  {
    SplitJoin(messages, '\n');
  }

  /** Every gathered message appears in the raised text. */
  lemma {:induction false} ErrorTextContainsMessages(messages: seq<string>, k: nat)
    requires k < |messages|
    ensures Contains(ErrorText(messages), messages[k])
  {
    if |messages| > 1 {
      var rest := JoinOn(messages[1..], '\n');
      assert ErrorText(messages) == messages[0] + ['\n'] + rest;
      if k == 0 {
        ContainsAt(ErrorText(messages), messages[0], 0);
      } else {
        ErrorTextContainsMessages(messages[1..], k - 1);
        assert ErrorText(messages[1..]) == rest;
        ContainsShift(messages[0] + ['\n'], rest, messages[k]);
      }
    } else {
      ContainsAt(ErrorText(messages), messages[0], 0);
    }
  }

  /** A piece of a string is a piece of anything that ends with it. */
  lemma {:induction false} ContainsShift(p: string, s: string, t: string)
    requires Contains(s, t)
    ensures Contains(p + s, t)
    decreases |p|
  {
    if p == [] {
      assert p + s == s;
    } else {
      ContainsShift(p[1..], s, t);
      assert (p + s)[1..] == p[1..] + s;
      ContainsLength(s, t);
    }
  }

  lemma ContainsLength(s: string, t: string)
    requires Contains(s, t)
    ensures |t| <= |s|
  {
  }

  /** The module-level `ERROR_MSG_LST`. */
  class ErrorLog {
    var messages: seq<string>

    constructor ()
      ensures messages == []
    {
      messages := [];
    }

    /** `set_error_message(msg)`: the callback OpenJPEG calls on an error. */
    method SetErrorMessage(msg: string)
      modifies this
      ensures messages == old(messages) + [msg]
    {
      messages := messages + [msg];
    }

    /** `check_error(status)`: status 1 is success and changes nothing; any
        other status raises with the gathered messages (or the generic text
        when there are none) and empties the list. */
    method CheckError(status: int) returns (r: Result<(), LibraryError>)
      modifies this
      ensures status == 1 ==> r == Ok(()) && messages == old(messages)
      ensures status != 1 ==> r == Err(LibraryError(ErrorText(old(messages)))) && messages == []
    {
      if status != 1 {
        if |messages| > 0 {
          var msg := JoinOn(messages, '\n');
          messages := [];
          return Err(LibraryError(msg));
        } else {
          return Err(LibraryError(GenericFailure));
        }
      }
      return Ok(());
    }
  }
}
