/**
 * The compose box of the comment panel: the draft (`inputValue`), the
 * `submitting` flag and the `error` message, and the events that change them.
 *
 * `handleSubmit` is asynchronous. Everything up to the awaited
 * `createComment` call is `BeginSubmit`; the rest, which runs when that call
 * settles, is `SettleSubmit`. Other events may run in between, and nothing
 * stops a second `BeginSubmit` from running while a request is in flight.
 */
module CommentComposer {
  import opened Wrappers
  import opened Utf16

  /** `maxChars`: the longest draft an emoji insertion may produce. */
  const MaxChars: nat := 400

  const FailureMessage: string := "Failed to submit comment. Try again."

  /** The argument of one `createComment` call. */
  datatype CommentRequest = CommentRequest(postId: string, content: Text)

  class Composer {
    const postId: string
    var inputValue: Text
    var submitting: bool
    var error: Option<string>
    /** Every `createComment` call made, in order. */
    var requests: seq<CommentRequest>
    /** How many of those calls have not settled yet. */
    var inFlight: nat
    /** Whether `window.location.reload()` has been called. */
    var reloadRequested: bool

    ghost predicate Valid()
      reads this
    {
      && (submitting ==> inFlight > 0)
      && inFlight <= |requests|
      && (error == None || error == Some(FailureMessage))
      && (forall i | 0 <= i < |requests| :: requests[i].postId == postId && !IsBlank(requests[i].content))
    }

    constructor (postId: string)
      ensures Valid()
      ensures this.postId == postId
      ensures inputValue == [] && !submitting && error == None
      ensures requests == [] && inFlight == 0 && !reloadRequested
    {
      this.postId := postId;
      inputValue := [];
      submitting := false;
      error := None;
      requests := [];
      inFlight := 0;
      reloadRequested := false;
    }

    /** The textarea's `onChange`: the draft becomes what the user typed. */
    method Edit(value: Text)
      requires Valid()
      modifies this`inputValue
      ensures Valid()
      ensures inputValue == value
    {
      inputValue := value;
    }

    /** `handleEmojiSelect`: append the glyph unless the draft would pass `MaxChars`. */
    method SelectEmoji(glyph: Text)
      requires Valid()
      modifies this`inputValue
      ensures Valid()
      ensures |old(inputValue) + glyph| <= MaxChars ==> inputValue == old(inputValue) + glyph
      ensures |old(inputValue) + glyph| > MaxChars ==> inputValue == old(inputValue)
      ensures |old(inputValue)| <= MaxChars ==> |inputValue| <= MaxChars
    {
      var newValue := inputValue + glyph;
      if |newValue| <= MaxChars {
        inputValue := newValue;
      }
    }

    /**
     * `handleSubmit` up to the awaited `createComment`: a draft that trims to
     * nothing is ignored; otherwise the flag is raised, the error cleared and
     * the draft sent.
     */
    method BeginSubmit() returns (started: bool)
      requires Valid()
      modifies this`submitting, this`error, this`requests, this`inFlight
      ensures Valid()
      ensures started <==> !IsBlank(inputValue)
      ensures !started ==> unchanged(this)
      ensures started ==> && submitting && error == None
                          && requests == old(requests) + [CommentRequest(postId, inputValue)]
                          && inFlight == old(inFlight) + 1
    {
      TrimEmptyIffBlank(inputValue);
      if Trim(inputValue) == [] {
        return false;
      }
      submitting := true;
      error := None;
      requests := requests + [CommentRequest(postId, inputValue)];
      inFlight := inFlight + 1;
      started := true;
    }

    /**
     * The rest of `handleSubmit`, when one request settles: reload on
     * success, the fixed message on failure, and in either case (`finally`)
     * the flag lowered and the draft emptied.
     */
    method SettleSubmit(succeeded: bool)
      requires Valid() && inFlight > 0
      modifies this`submitting, this`error, this`inputValue, this`inFlight, this`reloadRequested
      ensures Valid()
      ensures !submitting && inputValue == [] && inFlight == old(inFlight) - 1
      ensures error == if succeeded then old(error) else Some(FailureMessage)
      ensures reloadRequested == (old(reloadRequested) || succeeded)
    {
      if succeeded {
        reloadRequested := true;
      } else {
        error := Some(FailureMessage);
      }
      submitting := false;
      inputValue := [];
      inFlight := inFlight - 1;
    }

    /** A whole `handleSubmit` run with no other event while `createComment` is awaited. */
    method HandleSubmit(succeeded: bool) returns (started: bool)
      requires Valid()
      modifies this`submitting, this`error, this`inputValue, this`requests, this`inFlight, this`reloadRequested
      ensures Valid()
      ensures started <==> !IsBlank(old(inputValue))
      ensures !started ==> unchanged(this)
      ensures started ==> && !submitting && inputValue == [] && inFlight == old(inFlight)
                          && requests == old(requests) + [CommentRequest(postId, old(inputValue))]
                          && error == (if succeeded then None else Some(FailureMessage))
                          && reloadRequested == (old(reloadRequested) || succeeded)
    {
      started := BeginSubmit();
      if started {
        SettleSubmit(succeeded);
      }
    }

    /** The send button: while `submitting` it is disabled and the click does nothing. */
    method PressSend() returns (started: bool)
      requires Valid()
      modifies this`submitting, this`error, this`requests, this`inFlight
      ensures Valid()
      ensures started <==> !old(submitting) && !IsBlank(inputValue)
      ensures !started ==> unchanged(this)
      ensures started ==> && submitting && error == None
                          && requests == old(requests) + [CommentRequest(postId, inputValue)]
                          && inFlight == old(inFlight) + 1
    {
      if submitting {
        return false;
      }
      started := BeginSubmit();
    }

    /**
     * The textarea's `onKeyDown`: Enter without Shift cancels the default
     * line break and starts a submit, whether or not one is in flight.
     */
    method KeyDown(key: string, shiftKey: bool) returns (defaultPrevented: bool, started: bool)
      requires Valid()
      modifies this`submitting, this`error, this`requests, this`inFlight
      ensures Valid()
      ensures defaultPrevented <==> key == "Enter" && !shiftKey
      ensures started <==> defaultPrevented && !IsBlank(inputValue)
      ensures !started ==> unchanged(this)
      ensures started ==> && submitting && error == None
                          && requests == old(requests) + [CommentRequest(postId, inputValue)]
                          && inFlight == old(inFlight) + 1
    {
      defaultPrevented, started := false, false;
      if key == "Enter" && !shiftKey {
        defaultPrevented := true;
        started := BeginSubmit();
      }
    }
  }

  /**
   * Pressing Enter twice before the first request settles sends the same
   * comment twice, and settling the first one lowers `submitting` while the
   * second is still in flight.
   */
  method EnterTwiceSendsTwice(postId: string, draft: Text)
    returns (requests: seq<CommentRequest>, submittingAfterFirst: bool, inFlightAfterFirst: nat)
    requires !IsBlank(draft)
    ensures requests == [CommentRequest(postId, draft), CommentRequest(postId, draft)]
    ensures !submittingAfterFirst && inFlightAfterFirst == 1
  {
    var c := new Composer(postId);
    c.Edit(draft);
    var _, first := c.KeyDown("Enter", false);
    var _, second := c.KeyDown("Enter", false);
    requests := c.requests;
    c.SettleSubmit(true);
    submittingAfterFirst, inFlightAfterFirst := c.submitting, c.inFlight;
  }

  /** The send button, by contrast, does nothing while a request is in flight. */
  method PressWhileSubmittingIsIgnored(postId: string, draft: Text)
    returns (requests: seq<CommentRequest>)
    requires !IsBlank(draft)
    ensures requests == [CommentRequest(postId, draft)]
  {
    var c := new Composer(postId);
    c.Edit(draft);
    var first := c.PressSend();
    var second := c.PressSend();
    requests := c.requests;
  }
}
