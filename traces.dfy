/**
 * Sequences of calls against the shared state: what holds of the two dictionaries
 * after any run of `connect` calls and resource operations.
 */
module Traces {
  import opened Values
  import opened Auth
  import opened Api

  /** One public call, with the time it is made and the answers it receives. */
  datatype Event =
    | Connect(credentials: Credentials, response: LoginResponse, at: int)
    | Call(op: Operation, choice: string, at: int, login: LoginResponse, status: int)

  /** The state after one call. */
  function Next(s: Store, e: Event): (t: Store)
    requires Coherent(s)
    ensures Coherent(t)
    ensures e.Connect? ==> Connected(t)
    ensures e.Call? ==> Connected(t) == Connected(s)
    ensures e.Call? && !Connected(s) ==> t == s
  {
    match e
    case Connect(c, response, at) => AfterLogin(c, response, at)
    case Call(op, choice, at, login, status) => Dispatch(s, op, choice, at, login, status).store
  }

  /** The state after the calls in `events`, first to last; the token fields stay set together. */
  function Run(s: Store, events: seq<Event>): (t: Store)
    requires Coherent(s)
    ensures Coherent(t)
    decreases |events|
  {
    if events == [] then s else Run(Next(s, events[0]), events[1..])
  }

  lemma {:induction false} RunAppend(s: Store, xs: seq<Event>, ys: seq<Event>)
    requires Coherent(s)
    ensures Run(s, xs + ys) == Run(Run(s, xs), ys)
    decreases |xs|
  {
    if xs == [] {
      assert xs + ys == ys;
    } else {
      assert (xs + ys)[0] == xs[0] && (xs + ys)[1..] == xs[1..] + ys;
      RunAppend(Next(s, xs[0]), xs[1..], ys);
    }
  }

  /** Once a bearer is stored, no call removes it. */
  lemma {:induction false} StaysConnected(s: Store, events: seq<Event>)
    requires Coherent(s) && Connected(s)
    ensures Connected(Run(s, events))
    decreases |events|
  {
    if events != [] {
      StaysConnected(Next(s, events[0]), events[1..]);
    }
  }

  /** A resource operation made in state `s` that sends neither a login nor a request and reports not-connected. */
  predicate Quiet(s: Store, e: Event)
    requires Coherent(s) && e.Call?
  {
    var r := Dispatch(s, e.op, e.choice, e.at, e.login, e.status);
    r.renewal.None? && r.request.None? && r.outcome == NotConnected
  }

  /** Resource operations alone never connect: without a `connect` call the client stays where it was loaded. */
  lemma {:induction false} OperationsNeverConnect(s: Store, events: seq<Event>)
    requires Coherent(s) && !Connected(s)
    requires forall i :: 0 <= i < |events| ==> events[i].Call?
    ensures Run(s, events) == s
    ensures forall i :: 0 <= i < |events| ==> Run(s, events[..i]) == s && Quiet(s, events[i])
    decreases |events|
  {
    if events != [] {
      OperationsNeverConnect(Next(s, events[0]), events[1..]);
      forall i | 0 <= i < |events|
        ensures Run(s, events[..i]) == s && Quiet(s, events[i])
      {
        OperationsNeverConnect(s, events[..i]);
      }
    }
  }

  /**
   * After any `connect`, successful or not, every later operation gets past the token
   * check: `NotConnected` can only be reported before the first `connect`.
   */
  lemma {:induction false} ConnectedAfterAnyConnect(s: Store, events: seq<Event>, k: nat)
    requires Coherent(s)
    requires k < |events| && events[k].Connect?
    ensures Connected(Run(s, events))
  {
    var before, after := events[..k], events[k..];
    assert events == before + after;
    RunAppend(s, before, after);
    var t := Run(s, before);
    assert after[0] == events[k];
    assert Run(t, after) == Run(Next(t, events[k]), after[1..]);
    StaysConnected(Next(t, events[k]), after[1..]);
  }

  /**
   * The credentials are never partially updated: after any run they are either the ones
   * the run started with, all `None`, or exactly the tuple some `connect` call was given.
   */
  lemma {:induction false} CredentialsComeFromConnect(s: Store, events: seq<Event>)
    requires Coherent(s)
    ensures var c := Run(s, events).credentials;
      c == s.credentials || c == NoCredentials ||
      exists i :: 0 <= i < |events| && events[i].Connect? && events[i].credentials == c
    decreases |events|
  {
    if events != [] {
      var t := Next(s, events[0]);
      CredentialsComeFromConnect(t, events[1..]);
      var c := Run(s, events).credentials;
      if c != s.credentials && c != NoCredentials && c != t.credentials {
        var i :| 0 <= i < |events[1..]| && events[1..][i].Connect? && events[1..][i].credentials == c;
        assert events[i + 1] == events[1..][i];
      }
      if c == t.credentials && c != s.credentials && c != NoCredentials {
        assert events[0].Connect? && events[0].credentials == c;
      }
    }
  }
}
