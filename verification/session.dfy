/**
  * `authFetch`, the fetch wrapper each page defines identically, with its
  * module-level `isRedirectingToLogin` latch. The browser's answer to the
  * request is a parameter. `AuthFetch` is one awaited call; `Send` and
  * `Receive` are its two halves, for requests started without waiting.
  */
module Session {
  import opened Js

  /** How the browser's `fetch` ends: with a response, or by throwing. */
  datatype FetchOutcome = Received(response: Response) | NetworkFailure

  /** What `authFetch` gives its caller: `null`, the response, or the rethrown error. */
  datatype FetchResult = NullResult | Returned(response: Response) | Rethrown

  /** An answer that makes `authFetch` redirect to the login page. */
  predicate Is401(outcome: FetchOutcome) {
    outcome.Received? && outcome.response.status == 401
  }

  class AuthSession {
    /** `isRedirectingToLogin` */
    var redirecting: bool
    /** whether `localStorage` still holds `sb_token` */
    var tokenStored: bool
    /** alerts shown and navigations to login.html started */
    var redirects: nat
    /** requests handed to `fetch` */
    var requestsSent: nat

    /** At most one redirect ever happens, it is what sets the latch, and it clears the stored token. */
    ghost predicate Valid()
      reads this
    {
      redirects <= 1 && (redirecting <==> redirects == 1) && (redirecting ==> !tokenStored)
    }

    constructor (hasToken: bool)
      ensures Valid()
      ensures !redirecting && tokenStored == hasToken && redirects == 0 && requestsSent == 0
    {
      redirecting := false;
      tokenStored := hasToken;
      redirects := 0;
      requestsSent := 0;
    }

    /**
      * `authFetch` up to its `await`: once the latch is set nothing is sent;
      * otherwise the request goes out. Requests sent one after another
      * without waiting all pass this test before any answer arrives.
      */
    method Send() returns (sent: bool)
      requires Valid()
      modifies this
      ensures Valid()
      ensures sent <==> !old(redirecting)
      ensures !sent ==> unchanged(this)
      ensures requestsSent == old(requestsSent) + (if sent then 1 else 0)
      ensures redirecting == old(redirecting) && tokenStored == old(tokenStored) && redirects == old(redirects)
    {
      sent := !redirecting;
      if sent {
        requestsSent := requestsSent + 1;
      }
    }

    /**
      * `authFetch` after its `await`: the answer to a request already sent. A
      * 401 sets the latch, removes the token and redirects, unless the latch is
      * already set, and gives null; any other answer is returned as it is, and
      * a network error is rethrown.
      */
    method Receive(outcome: FetchOutcome) returns (r: FetchResult)
      requires Valid()
      modifies this
      ensures Valid()
      ensures requestsSent == old(requestsSent)
      ensures Is401(outcome) ==> r == NullResult && redirecting && !tokenStored && redirects == 1
      ensures !Is401(outcome) ==>
        r == (if outcome.Received? then Returned(outcome.response) else Rethrown)
        && redirecting == old(redirecting) && tokenStored == old(tokenStored) && redirects == old(redirects)
    {
      match outcome
      case NetworkFailure =>
        r := Rethrown;
      case Received(response) =>
        if response.status == 401 {
          if !redirecting {
            redirecting := true;
            redirects := redirects + 1;
            tokenStored := false;
          }
          r := NullResult;
        } else {
          r := Returned(response);
        }
    }

    /**
      * One awaited call of `authFetch`. Once the latch is set it returns null
      * and sends nothing. Otherwise it sends the request; a 401 answer sets the
      * latch, removes the token, redirects once and returns null; any other
      * answer is returned as it is, and a network error is rethrown.
      */
    method AuthFetch(outcome: FetchOutcome) returns (r: FetchResult)
      requires Valid()
      modifies this
      ensures Valid()
      ensures old(redirecting) ==> r == NullResult && unchanged(this)
      ensures !old(redirecting) ==> requestsSent == old(requestsSent) + 1
      ensures !old(redirecting) && outcome.Received? && outcome.response.status == 401 ==>
        r == NullResult && redirecting && !tokenStored && redirects == 1
      ensures !old(redirecting) && outcome.Received? && outcome.response.status != 401 ==>
        r == Returned(outcome.response) && redirecting == old(redirecting)
        && tokenStored == old(tokenStored) && redirects == old(redirects)
      ensures !old(redirecting) && outcome.NetworkFailure? ==>
        r == Rethrown && redirecting == old(redirecting)
        && tokenStored == old(tokenStored) && redirects == old(redirects)
    {
      var sent := Send();
      if !sent {
        return NullResult;
      }
      r := Receive(outcome);
    }
  }

  /** Two 401 answers in a row redirect once; the third call sends nothing. */
  method RedirectsOnce(first: Response, second: Response, third: FetchOutcome)
    requires first.status == 401
  {
    var s := new AuthSession(true);
    var a := s.AuthFetch(Received(first));
    assert a == NullResult && s.redirects == 1;
    var sent := s.requestsSent;
    var b := s.AuthFetch(Received(second));
    var c := s.AuthFetch(third);
    assert b == NullResult && c == NullResult;
    assert s.redirects == 1 && s.requestsSent == sent && !s.tokenStored;
  }
}
