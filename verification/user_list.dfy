/** The admin user list (src/components/admin/UserList.tsx): toggling a
    user between active and disabled, deleting a user by marking the
    profile deleted, and the matching update of the list on screen. Each
    change is an upsert of the profile's status followed by the
    account-status email; `sendEmail` rethrows on failure, so the list on
    screen changes only when both succeed. */
module UserList {
  import opened Wrappers
  import opened Entities
  import N = Notifications

  datatype UserRow = UserRow(id: string, fullName: string, email: string, status: AccountStatus, role: Role)

  /** The toggle's new status: active users become disabled, every other
      status, deleted included, becomes active. */
  function ToggledStatus(s: AccountStatus): (t: AccountStatus)
    ensures t == Disabled <==> s == AccountStatus.Active
    ensures t == AccountStatus.Active <==> s != AccountStatus.Active
  {
    if s == AccountStatus.Active then Disabled else AccountStatus.Active
  }

  /** Toggling twice restores active and disabled users; a deleted user
      comes back active. */
  lemma ToggleTwice(s: AccountStatus)
    ensures s != Deleted ==> ToggledStatus(ToggledStatus(s)) == s
    ensures s == Deleted ==> ToggledStatus(ToggledStatus(s)) == Disabled
  {
  }

  /** The local list after a status change: the entries with id `id` take
      status `s`; every other entry, the length and the order stay. */
  function WithStatus(users: seq<UserRow>, id: string, s: AccountStatus): (r: seq<UserRow>)
    ensures |r| == |users|
    ensures forall i :: 0 <= i < |r| && users[i].id == id ==> r[i] == users[i].(status := s)
    ensures forall i :: 0 <= i < |r| && users[i].id != id ==> r[i] == users[i]
  {
    if users == [] then []
    else
      var head := if users[0].id == id then users[0].(status := s) else users[0];
      [head] + WithStatus(users[1..], id, s)
  }

  /** Changing a status and changing it back restores a list whose entries
      with that id all had the original status. */
  lemma {:induction false} WithStatusUndo(users: seq<UserRow>, id: string, s: AccountStatus, t: AccountStatus)
    requires forall i :: 0 <= i < |users| && users[i].id == id ==> users[i].status == t
    ensures WithStatus(WithStatus(users, id, s), id, t) == users
  {
    var back := WithStatus(WithStatus(users, id, s), id, t);
    assert |back| == |users|;
    forall i | 0 <= i < |users|
      ensures back[i] == users[i]
    {
      if users[i].id == id {
        assert back[i] == users[i].(status := t);
      }
    }
  }

  /** The email data of the account-status email. */
  function StatusEmailData(user: UserRow, s: AccountStatus): N.TemplateData {
    N.TemplateData(user.fullName, "", "", "", "", "", "", AccountStatusText(s))
  }

  datatype Change = Change(store: Store, users: seq<UserRow>, outcome: Outcome)

  /** The shared upsert-then-email-then-list sequence of both handlers. */
  function ApplyStatus(store: Store, users: seq<UserRow>, user: UserRow, s: AccountStatus,
                       upsert: Outcome, email: N.Delivery): (r: Change)
    ensures upsert.Failure? ==> r == Change(store, users, upsert)
    ensures upsert.Success? ==>
              r.store.accounts == store.accounts[user.id := s]
              && N.LoggedOnce(store.emailLog, r.store.emailLog, N.AccountStatusChange, user.email, email)
              && r.outcome == email.send
    ensures r.users != users ==> upsert.Success? && email.send.Success?
    ensures upsert.Success? && email.send.Success? ==> r.users == WithStatus(users, user.id, s)
    ensures r.store.bookings == store.bookings && r.store.verifications == store.verifications
            && r.store.receipts == store.receipts && r.store.objects == store.objects
  {
    match upsert
    case Failure(_) => Change(store, users, upsert)
    case Success =>
      var updated := store.(accounts := store.accounts[user.id := s]);
      var sent := N.SendEmail(updated.emailLog, N.AccountStatusChange, user.email,
                              StatusEmailData(user, s), email);
      var stored := updated.(emailLog := sent.log);
      match sent.outcome
      case Failure(_) => Change(stored, users, sent.outcome)
      case Success => Change(stored, WithStatus(users, user.id, s), Success)
  }

  /** `handleStatusToggle`. */
  function HandleStatusToggle(store: Store, users: seq<UserRow>, user: UserRow,
                              upsert: Outcome, email: N.Delivery): (r: Change)
    ensures upsert.Failure? ==> r == Change(store, users, upsert)
    ensures upsert.Success? ==> r.store.accounts == store.accounts[user.id := ToggledStatus(user.status)]
    ensures upsert.Success? && email.send.Success? ==>
              r.users == WithStatus(users, user.id, ToggledStatus(user.status)) && r.outcome == Success
    ensures upsert.Success? && email.send.Failure? ==> r.users == users && r.outcome == email.send
    ensures upsert.Success? ==>
              N.LoggedOnce(store.emailLog, r.store.emailLog, N.AccountStatusChange, user.email, email)
    ensures r.store.bookings == store.bookings && r.store.verifications == store.verifications
            && r.store.receipts == store.receipts && r.store.objects == store.objects
  {
    ApplyStatus(store, users, user, ToggledStatus(user.status), upsert, email)
  }

  /** The delete confirmation dialog: the user picked for deletion and
      whether the dialog is open. */
  datatype DeleteDialog = DeleteDialog(selected: Option<UserRow>, open: bool)

  datatype Deletion = Deletion(change: Change, dialog: DeleteDialog)

  /** `handleDeleteUser`. With no selection it returns before anything else,
      the dialog included; otherwise, whatever happens, the dialog is closed
      and the selection cleared. */
  function HandleDeleteUser(store: Store, users: seq<UserRow>, dialog: DeleteDialog,
                            upsert: Outcome, email: N.Delivery): (r: Deletion)
    ensures dialog.selected.None? ==> r == Deletion(Change(store, users, Success), dialog)
    ensures dialog.selected.Some? ==> r.dialog == DeleteDialog(None, false)
    ensures dialog.selected.Some? && upsert.Success? ==>
              r.change.store.accounts == store.accounts[dialog.selected.value.id := Deleted]
    ensures dialog.selected.Some? && upsert.Failure? ==> r.change == Change(store, users, upsert)
    ensures dialog.selected.Some? && upsert.Success? ==>
              N.LoggedOnce(store.emailLog, r.change.store.emailLog, N.AccountStatusChange,
                           dialog.selected.value.email, email)
              && r.change.outcome == email.send
    ensures r.change.users != users ==> upsert.Success? && email.send.Success?
    ensures dialog.selected.Some? && upsert.Success? && email.send.Success? ==>
              r.change.users == WithStatus(users, dialog.selected.value.id, Deleted)
    ensures r.change.store.bookings == store.bookings && r.change.store.verifications == store.verifications
            && r.change.store.receipts == store.receipts && r.change.store.objects == store.objects
  {
    match dialog.selected
    case None => Deletion(Change(store, users, Success), dialog)
    case Some(user) =>
      Deletion(ApplyStatus(store, users, user, Deleted, upsert, email), DeleteDialog(None, false))
  }

  /** The deletion email reads "now active": the template gives the support
      sentence only to the status text "disabled". */
  lemma DeletionEmailSaysActive(user: UserRow)
    ensures N.StatusBody(StatusEmailData(user, Deleted))[4] == N.ActiveSentence
  {
  }

  /** When the upsert succeeds and the email fails, the stored status has
      changed while the list on screen still shows the old one. */
  lemma ListLagsOnEmailFailure(store: Store, users: seq<UserRow>, user: UserRow, e: string, logInsert: Outcome)
    requires user in users
    ensures var r := HandleStatusToggle(store, users, user, Success, N.Delivery(Failure(e), logInsert));
            r.store.accounts[user.id] == ToggledStatus(user.status)
            && user in r.users && r.users == users
  {
  }
}
