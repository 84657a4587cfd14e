/**
 * The resource operations, reduced to what they decide: every one first runs
 * `verify_token`, then checks its enumerated parameter if it has one, then sends one
 * request carrying the stored bearer, and finally compares the status code with the
 * one success code it expects. `get_workspace` also picks the first workspace whose
 * id matches.
 */
module Api {
  import opened Values
  import opened Auth

  const HTTP_ACCEPTED := 202

  /** The public operations of the client besides `connect`, `verify_token` and `get_token`. */
  datatype Operation =
    | GetWorkspaces | GetWorkspace | CreateWorkspace | DeleteWorkspace
    | GetUsersInWorkspace | AddUserToWorkspace | DeleteUserFromWorkspace | UpdateUserInWorkspace
    | GetReports | GetReport | DeleteReport | ExportReport | ImportReport | CloneReport
    | GetDatasets | GetDataset | DeleteDataset | RefreshDataset

  /** The only status an operation treats as success: 202 for an import, 200 for everything else. */
  function ExpectedStatus(op: Operation): (code: int)
    ensures code == HTTP_OK || code == HTTP_ACCEPTED
    ensures code == HTTP_ACCEPTED <==> op == ImportReport
  {
    if op == ImportReport then HTTP_ACCEPTED else HTTP_OK
  }

  const ACCESS_RIGHTS: seq<string> := ["Admin", "Contributor", "Member"]
  const NAME_CONFLICT_MODES: seq<string> := ["CreateOrOverwrite", "GenerateUniqueName", "Ignore", "Overwrite"]

  /** The default arguments of `add_user_to_workspace`/`update_user_in_workspace`, `import_report` and `refresh_dataset`. */
  const DEFAULT_ACCESS := "Member"
  const DEFAULT_NAME_CONFLICT := "CreateOrOverwrite"
  const DEFAULT_NOTIFY_OPTION := "NoNotification"

  /** The fixed set an operation checks its enumerated parameter against, or `None` when it checks nothing. */
  function AllowedValues(op: Operation): (r: Option<seq<string>>)
    ensures r.Some? <==> op == AddUserToWorkspace || op == UpdateUserInWorkspace || op == ImportReport
    ensures r.Some? ==> r.value == if op == ImportReport then NAME_CONFLICT_MODES else ACCESS_RIGHTS
  {
    match op
    case AddUserToWorkspace => Some(ACCESS_RIGHTS)
    case UpdateUserInWorkspace => Some(ACCESS_RIGHTS)
    case ImportReport => Some(NAME_CONFLICT_MODES)
    case _ => None
  }

  /** The `in [...]` guard; an operation without one admits every value. */
  function Admits(op: Operation, choice: string): (ok: bool)
    ensures op == AddUserToWorkspace || op == UpdateUserInWorkspace ==>
      (ok <==> choice == "Admin" || choice == "Contributor" || choice == "Member")
    ensures op == ImportReport ==>
      (ok <==> choice == "CreateOrOverwrite" || choice == "GenerateUniqueName" || choice == "Ignore" || choice == "Overwrite")
    ensures op != AddUserToWorkspace && op != UpdateUserInWorkspace && op != ImportReport ==> ok
  {
    AllowedValues(op).None? || choice in AllowedValues(op).value
  }

  /** An operation request as it leaves the client: which call, its Authorization header and its enumerated parameter. */
  datatype ApiRequest = ApiRequest(op: Operation, authorization: string, choice: string)

  /**
   * How an operation ends. The source prints a message for every failure and otherwise
   * signals it only by `verify_token` returning false and by a value-returning operation
   * returning `None` instead of its result.
   */
  datatype Outcome = NotConnected | InvalidValue | Failed(status: int) | Succeeded

  /** Everything one operation call does: the state it leaves, the login it sent, the request it sent and how it ended. */
  datatype Step = Step(store: Store, renewal: Option<LoginRequest>, request: Option<ApiRequest>, outcome: Outcome)

  /**
   * One call of `op` with enumerated parameter `choice` at time `now`; `login` is what a
   * renewal would get back and `status` what the operation's own request gets back.
   * The state changes exactly as `verify_token` changes it, whatever the parameter:
   * the guard runs only after the token check, so a rejected value may still have caused
   * a renewal. A request goes out exactly when the client is connected and the value is
   * admitted, it carries the bearer stored after the check, which has not expired, and the
   * call succeeds exactly when that request got the operation's expected status.
   */
  function Dispatch(s: Store, op: Operation, choice: string, now: int, login: LoginResponse, status: int): (r: Step)
    requires Coherent(s)
    ensures Coherent(r.store)
    ensures r.store == Verify(s, now, login).store && r.renewal == Verify(s, now, login).renewal
    ensures r.outcome == NotConnected <==> !Connected(s)
    ensures r.outcome == InvalidValue <==> Connected(s) && !Admits(op, choice)
    ensures r.request.Some? <==> Connected(s) && Admits(op, choice)
    ensures r.request.Some? ==>
      r.request.value == ApiRequest(op, r.store.token.bearer.value, choice) &&
      now <= r.store.token.expiration.value
    ensures r.outcome == Succeeded <==> r.request.Some? && status == ExpectedStatus(op)
    ensures r.outcome.Failed? ==> r.request.Some? && r.outcome.status == status != ExpectedStatus(op)
  {
    var v := Verify(s, now, login);
    if !v.ok then
      Step(v.store, v.renewal, None, NotConnected)
    else if !Admits(op, choice) then
      Step(v.store, v.renewal, None, InvalidValue)
    else
      var request := ApiRequest(op, v.store.token.bearer.value, choice);
      Step(v.store, v.renewal, Some(request), if status == ExpectedStatus(op) then Succeeded else Failed(status))
  }

  /** An access right outside Admin, Contributor and Member is refused without a request, yet an expired token is still renewed first. */
  lemma OwnerRejectedAfterRenewal(s: Store, op: Operation, now: int, login: LoginResponse, status: int)
    requires op == AddUserToWorkspace || op == UpdateUserInWorkspace
    requires Coherent(s) && Connected(s) && s.token.expiration.value < now
    ensures Dispatch(s, op, "Owner", now, login, status).outcome == InvalidValue
    ensures Dispatch(s, op, "Owner", now, login, status).request.None?
    ensures Dispatch(s, op, "Owner", now, login, status).renewal == Some(LoginRequestFor(s.credentials))
    ensures Dispatch(s, op, "Admin", now, login, status).request.Some?
  {
  }

  /** `refresh_dataset` validates no notification option and, unlike an import, counts only 200 as success. */
  lemma RefreshIsUnvalidated(choice: string)
    ensures Admits(RefreshDataset, choice)
    ensures ExpectedStatus(RefreshDataset) == HTTP_OK
  {
  }

  /** Each operation's default enumerated argument passes its own guard. */
  lemma DefaultsAdmitted()
    ensures Admits(AddUserToWorkspace, DEFAULT_ACCESS) && Admits(UpdateUserInWorkspace, DEFAULT_ACCESS)
    ensures Admits(ImportReport, DEFAULT_NAME_CONFLICT)
    ensures Admits(RefreshDataset, DEFAULT_NOTIFY_OPTION)
  {
  }

  /** One workspace record as returned by the groups listing. */
  datatype Workspace = Workspace(id: string, name: string)

  /** The list comprehension keeping the workspaces whose id equals `id`, in their original order. */
  function MatchingId(groups: seq<Workspace>, id: string): (ws: seq<Workspace>)
    ensures |ws| <= |groups|
    ensures forall w :: w in ws ==> w in groups && w.id == id
    ensures forall w :: w in groups && w.id == id ==> w in ws
  {
    if groups == [] then []
    else (if groups[0].id == id then [groups[0]] else []) + MatchingId(groups[1..], id)
  }

  /** A listing of one record keeps it exactly when its id matches. */
  lemma MatchingIdSingle(w: Workspace, id: string)
    ensures MatchingId([w], id) == if w.id == id then [w] else []
  {
  }

  /**
   * Filtering a concatenation filters each part and keeps them in order; with
   * `MatchingIdSingle` this pins down the order and the repeats of the result.
   */
  lemma {:induction false} MatchingIdAppend(a: seq<Workspace>, b: seq<Workspace>, id: string)
    ensures MatchingId(a + b, id) == MatchingId(a, id) + MatchingId(b, id)
    decreases |a|
  {
    if a == [] {
      assert a + b == b;
    } else {
      assert (a + b)[0] == a[0] && (a + b)[1..] == a[1..] + b;
      MatchingIdAppend(a[1..], b, id);
    }
  }

  /** What `get_workspace` returns from a successful listing: the first match, or `None` when nothing matches. */
  function FirstWithId(groups: seq<Workspace>, id: string): (r: Option<Workspace>)
    ensures r.None? <==> forall i :: 0 <= i < |groups| ==> groups[i].id != id
    ensures r.Some? ==> r.value in groups && r.value.id == id
  {
    var ws := MatchingId(groups, id);
    assert |ws| > 0 ==> ws[0] in ws;
    if |ws| > 0 then Some(ws[0]) else None
  }

  /** The workspace returned is the one at the smallest index whose id matches. */
  lemma {:induction false} FirstWithIdIsFirstMatch(groups: seq<Workspace>, id: string, k: nat)
    requires k < |groups| && groups[k].id == id
    requires forall j :: 0 <= j < k ==> groups[j].id != id
    ensures FirstWithId(groups, id) == Some(groups[k])
  {
    if k > 0 {
      FirstWithIdIsFirstMatch(groups[1..], id, k - 1);
      assert MatchingId(groups, id) == MatchingId(groups[1..], id);
    }
  }
}
