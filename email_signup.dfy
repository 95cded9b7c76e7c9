/**
 * The mailing-list form on the Aaroha page: the address check
 * `/^\S+@\S+\.\S+$/`, the submit handler's message and email updates, the
 * email input's change handler and the conditional message line. The
 * request itself is abstracted: a submit records the address it would
 * send, and its completion or failure arrives later as an outcome.
 */
module EmailSignup {
  import opened Wrappers

  /**
   * The characters ECMAScript's `\s` matches: WhiteSpace (TAB, VT, FF,
   * SP, NBSP, ZWNBSP and the Zs category) and LineTerminator (LF, CR,
   * LS, PS).
   */
  predicate IsSpace(c: char)
  {
    || c == '\t' || c == '\n' || c == '\U{000B}' || c == '\U{000C}' || c == '\r' || c == ' '
    || c == '\U{00A0}' || c == '\U{1680}' || ('\U{2000}' <= c <= '\U{200A}')
    || c == '\U{2028}' || c == '\U{2029}' || c == '\U{202F}' || c == '\U{205F}'
    || c == '\U{3000}' || c == '\U{FEFF}'
  }

  /** Every character matches `\S`. */
  predicate NoSpace(s: string)
  {
    forall k :: 0 <= k < |s| ==> !IsSpace(s[k])
  }

  /**
   * The language of `^\S+@\S+\.\S+$`: three non-empty runs of non-space
   * characters joined by '@' and '.'.
   */
  ghost predicate MatchesPattern(s: string)
  {
    exists a: string, b: string, c: string ::
      && |a| > 0 && |b| > 0 && |c| > 0
      && NoSpace(a) && NoSpace(b) && NoSpace(c)
      && s == a + "@" + b + "." + c
  }

  /** The same language stated on positions: no space, an '@' at i >= 1, a '.' at j with i + 2 <= j <= |s| - 2. */
  ghost predicate PositionForm(s: string)
  {
    && NoSpace(s)
    && exists i, j :: 1 <= i && i + 2 <= j <= |s| - 2 && s[i] == '@' && s[j] == '.'
  }

  lemma NoSpaceSlices(s: string, lo: int, hi: int)
    requires NoSpace(s) && 0 <= lo <= hi <= |s|
    ensures NoSpace(s[lo..hi])
  {
    forall k | 0 <= k < hi - lo ensures !IsSpace(s[lo..hi][k]) {
      assert s[lo..hi][k] == s[lo + k];
    }
  }

  /** A match of the pattern puts an '@' at i = |a| >= 1 and a '.' at i + |b| + 1, at most |s| - 2. */
  lemma PatternToPositions(s: string)
    requires MatchesPattern(s)
    ensures PositionForm(s)
  {
    var a: string, b: string, c: string :|
      && |a| > 0 && |b| > 0 && |c| > 0
      && NoSpace(a) && NoSpace(b) && NoSpace(c)
      && s == a + "@" + b + "." + c;
    var ab := a + "@" + b;
    assert s == ab + "." + c;
    var i, j := |a|, |ab|;
    assert ab[i] == '@';
    assert s[i] == '@' && s[j] == '.';
    forall k | 0 <= k < |s| ensures !IsSpace(s[k]) {
      if k < i {
        assert s[k] == ab[k] == a[k];
      } else if i < k < j {
        assert s[k] == ab[k] == b[k - i - 1];
      } else if j < k {
        assert s[k] == c[k - j - 1];
      }
    }
  }

  /** Cutting at the '@' and the '.' gives the three runs the pattern asks for. */
  lemma PositionsToPattern(s: string)
    requires PositionForm(s)
    ensures MatchesPattern(s)
  {
    var i, j :| 1 <= i && i + 2 <= j <= |s| - 2 && s[i] == '@' && s[j] == '.';
    var a, b, c := s[..i], s[i + 1..j], s[j + 1..];
    NoSpaceSlices(s, 0, i);
    NoSpaceSlices(s, i + 1, j);
    NoSpaceSlices(s, j + 1, |s|);
    assert s[..j] == a + "@" + b by {
      assert s[..j] == s[..i] + s[i..j];
      assert s[i..j] == [s[i]] + b;
    }
    assert s == a + "@" + b + "." + c by {
      assert s == s[..j] + s[j..];
      assert s[j..] == [s[j]] + c;
    }
    assert |a| > 0 && |b| > 0 && |c| > 0 && NoSpace(a) && NoSpace(b) && NoSpace(c);
  }

  /** The pattern and the position form accept exactly the same strings. */
  lemma PatternIffPositions(s: string)
    ensures MatchesPattern(s) <==> PositionForm(s)
  {
    if MatchesPattern(s) {
      PatternToPositions(s);
    }
    if PositionForm(s) {
      PositionsToPattern(s);
    }
  }

  /** The first position at or after `from` holding `ch`. */
  function FindFrom(s: string, ch: char, from: nat): (r: Option<nat>)
    decreases |s| - from
    ensures r.Some? ==> from <= r.value < |s| && s[r.value] == ch
    ensures r.Some? ==> forall k :: from <= k < r.value ==> s[k] != ch
    ensures r.None? ==> forall k :: from <= k < |s| ==> s[k] != ch
  {
    if from >= |s| then None
    else if s[from] == ch then Some(from)
    else FindFrom(s, ch, from + 1)
  }

  /** The last position before `end` holding `ch`. */
  function FindLastBefore(s: string, ch: char, end: nat): (r: Option<nat>)
    requires end <= |s|
    ensures r.Some? ==> r.value < end && s[r.value] == ch
    ensures r.Some? ==> forall k :: r.value < k < end ==> s[k] != ch
    ensures r.None? ==> forall k :: 0 <= k < end ==> s[k] != ch
  {
    if end == 0 then None
    else if s[end - 1] == ch then Some(end - 1)
    else FindLastBefore(s, ch, end - 1)
  }

  function AllNonSpace(s: string): (ok: bool)
    ensures ok <==> NoSpace(s)
  {
    if s == [] then true
    else
      assert forall k :: 1 <= k < |s| ==> s[k] == s[1..][k - 1];
      !IsSpace(s[0]) && AllNonSpace(s[1..])
  }

  /**
   * `/^\S+@\S+\.\S+$/.test(s)`: decided from the first '@' after position 0
   * and the last '.' before the final character.
   */
  function IsValidEmail(s: string): (ok: bool)
    ensures ok <==> MatchesPattern(s)
  {
    PatternIffPositions(s);
    var at := FindFrom(s, '@', 1);
    var dot := if |s| >= 1 then FindLastBefore(s, '.', |s| - 1) else None;
    AllNonSpace(s) && at.Some? && dot.Some? && at.value + 2 <= dot.value
  }

  /** A plain address is accepted: '@' at 1, '.' at 3. */
  lemma AcceptsPlainAddress()
    ensures IsValidEmail("a@b.c")
  {
    var s := "a@b.c";
    assert s[1] == '@' && s[3] == '.';
    PositionsToPattern(s);
  }

  /** A doubled '@' and a second '.' are still accepted: '\S' matches both. */
  lemma AcceptsDoubledSeparators()
    ensures IsValidEmail("a@@b.c.d")
  {
    var s := "a@@b.c.d";
    assert s[1] == '@' && s[6] == '.';
    PositionsToPattern(s);
  }

  /** Addresses the pattern rejects: no '.', nothing before '@', nothing after '.', nothing between, a space. */
  lemma RejectedExamples()
    ensures !IsValidEmail("a@b")
    ensures !IsValidEmail("@b.c")
    ensures !IsValidEmail("a@b.")
    ensures !IsValidEmail("a@.c")
    ensures !IsValidEmail("a b@c.d")
  {
    assert FindLastBefore("a@b", '.', 2) == None;
    assert FindFrom("@b.c", '@', 1) == None;
    assert FindLastBefore("a@b.", '.', 3) == None;
    assert FindFrom("a@.c", '@', 1) == Some(1);
    assert FindLastBefore("a@.c", '.', 3) == Some(2);
    assert IsSpace("a b@c.d"[1]);
  }

  const InvalidMessage: string := "Please enter a valid email."
  const SuccessMessage: string := "You're on the list! \U{1F389}"
  const FailureMessage: string := "Something went wrong. Try again?"

  /** How a request ended: the awaited fetch resolved, or it threw. */
  datatype Outcome = Completed | Threw

  /** The form's state on the page. */
  class SignupForm {
    var email: string
    var message: string
    /** Addresses sent to the sign-up endpoint, in order. */
    var requests: seq<string>
    /** Requests sent whose outcome has not arrived. */
    var inFlight: nat

    constructor ()
      ensures email == "" && message == "" && requests == [] && inFlight == 0
    {
      email := "";
      message := "";
      requests := [];
      inFlight := 0;
    }

    /** The input's `onChange`: the field holds exactly what was typed. */
    method Type(value: string)
      modifies this`email
      ensures email == value
    {
      email := value;
    }

    /** `submitEmail` up to the `await`: reject the address, or send it. */
    method Submit()
      modifies this`message, this`requests, this`inFlight
      ensures !IsValidEmail(email) ==>
        message == InvalidMessage && requests == old(requests) && inFlight == old(inFlight)
      ensures IsValidEmail(email) ==>
        message == old(message) && requests == old(requests) + [email] && inFlight == old(inFlight) + 1
    {
      if !IsValidEmail(email) {
        message := InvalidMessage;
        return;
      }
      requests := requests + [email];
      inFlight := inFlight + 1;
    }

    /** `submitEmail` after the `await`: the success branch clears the field, the catch branch keeps it. */
    method RequestSettles(outcome: Outcome)
      requires inFlight > 0
      modifies this`message, this`email, this`inFlight
      ensures inFlight == old(inFlight) - 1
      ensures outcome == Completed ==> message == SuccessMessage && email == ""
      ensures outcome == Threw ==> message == FailureMessage && email == old(email)
    {
      inFlight := inFlight - 1;
      if outcome == Completed {
        message := SuccessMessage;
        email := "";
      } else {
        message := FailureMessage;
      }
    }

    /** `{message && <p>...</p>}`: the paragraphs rendered under the form. */
    function MessageLines(): (lines: seq<string>)
      reads this
      ensures lines == [] <==> message == ""
      ensures lines != [] ==> lines == [message]
    {
      if message != "" then [message] else []
    }
  }

  /**
   * One submit of a typed address: every outcome leaves exactly one message
   * line on screen, only a valid address is sent, and only a completed
   * request clears the field.
   */
  method SubmitOnce(typed: string, outcome: Outcome) returns (lines: seq<string>, email: string, sent: seq<string>)
    ensures !IsValidEmail(typed) ==> lines == [InvalidMessage]
    ensures IsValidEmail(typed) && outcome == Completed ==> lines == [SuccessMessage]
    ensures IsValidEmail(typed) && outcome == Threw ==> lines == [FailureMessage]
    ensures sent == if IsValidEmail(typed) then [typed] else []
    ensures email == if IsValidEmail(typed) && outcome == Completed then "" else typed
  {
    var form := new SignupForm();
    form.Type(typed);
    form.Submit();
    if form.inFlight > 0 {
      form.RequestSettles(outcome);
    }
    lines, email, sent := form.MessageLines(), form.email, form.requests;
  }
}
