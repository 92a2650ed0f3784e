/**
 * The state of the App component and its handlers. `users`, `records` and `sessionId` are
 * what local storage holds (every change to them is written back whole); `currentUser`,
 * `activeRecord` and `aiMessage` live only in memory. Dialog answers, fresh ids, clock
 * readings and the text-generation outcome are parameters.
 */
module App {
  import opened Wrappers
  import opened Types
  import opened Directory
  import opened Ledger
  import opened Scoping
  import opened Messages

  /** The alerts the handlers raise. */
  datatype Error = DuplicateMobileNumber | InvalidCredentials | MissingTenant | DuplicatePaymentForMonth

  datatype Outcome = Pass | Fail(error: Error)

  class Store {
    var users: seq<User>
    var records: seq<RentRecord>
    var sessionId: Option<string>
    var currentUser: Option<User>
    var activeRecord: Option<RentRecord>
    var aiMessage: string

    /** A page load over the stored collections and session key. */
    constructor Load(savedUsers: seq<User>, savedRecords: seq<RentRecord>, savedSession: Option<string>)
      ensures users == Seeded(savedUsers) && records == savedRecords && sessionId == savedSession
      ensures currentUser == SessionUser(users, savedSession)
      ensures activeRecord == None && aiMessage == ""
    {
      users, records, sessionId := savedUsers, savedRecords, savedSession;
      currentUser, activeRecord, aiMessage := None, None, "";
      new;
      Mount();
    }

    /**
     * The start-up effect: seed the master landlord, then restore the stored session if it
     * names an account. The in-memory state starts afresh, as on every page load.
     */
    method Mount()
      modifies this`users, this`currentUser, this`activeRecord, this`aiMessage
      ensures users == Seeded(old(users)) && records == old(records) && sessionId == old(sessionId)
      ensures currentUser == SessionUser(users, sessionId)
      ensures activeRecord == None && aiMessage == ""
      ensures MobileUnique(old(users)) ==> MobileUnique(users)
    {
      if MobileUnique(users) {
        SeedKeepsUnique(users);
      }
      var seeded := Seeded(users);
      users, currentUser, activeRecord, aiMessage := seeded, SessionUser(seeded, sessionId), None, "";
    }

    /** Logging out removes the session key and reloads the page; declining the dialog does nothing. */
    method Logout(confirmed: bool)
      modifies this
      ensures !confirmed ==> unchanged(this)
      ensures confirmed ==> sessionId == None && currentUser == None
      ensures confirmed ==> users == Seeded(old(users)) && records == old(records)
      ensures confirmed ==> activeRecord == None && aiMessage == ""
    {
      if confirmed {
        sessionId := None;
        Mount();
      }
    }

    /** Registration: refused when the mobile number is taken, otherwise appends the account and logs it in. */
    method Register(form: AuthForm, freshId: string) returns (outcome: Outcome)
      requires freshId != "" && IdUnused(users, freshId)
      modifies this
      ensures outcome == if MobileTaken(old(users), form.mobileNumber) then Fail(DuplicateMobileNumber) else Pass
      ensures outcome.Fail? ==> unchanged(this)
      ensures outcome.Pass? ==> users == old(users) + [NewUser(freshId, form)]
      ensures outcome.Pass? ==> currentUser == Some(NewUser(freshId, form)) && sessionId == Some(freshId)
      ensures records == old(records) && activeRecord == old(activeRecord) && aiMessage == old(aiMessage)
      ensures MobileUnique(old(users)) ==> MobileUnique(users)
    {
      if MobileTaken(users, form.mobileNumber) {
        return Fail(DuplicateMobileNumber);
      }
      var u := NewUser(freshId, form);
      if MobileUnique(users) {
        AppendKeepsUnique(users, u);
      }
      users := users + [u];
      currentUser := Some(u);
      sessionId := Some(freshId);
      outcome := Pass;
    }

    /** Login: the first account whose mobile number and password both match becomes the session. */
    method Login(mobile: string, password: string) returns (outcome: Outcome)
      modifies this
      ensures outcome.Pass? <==> LoginMatch(users, mobile, password).Some?
      ensures outcome.Fail? ==> outcome.error == InvalidCredentials && unchanged(this)
      ensures outcome.Pass? ==> currentUser == LoginMatch(users, mobile, password)
      ensures outcome.Pass? ==> sessionId == Some(currentUser.value.id)
      ensures users == old(users) && records == old(records)
      ensures activeRecord == old(activeRecord) && aiMessage == old(aiMessage)
    {
      var found := LoginMatch(users, mobile, password);
      if found.None? {
        return Fail(InvalidCredentials);
      }
      currentUser := found;
      sessionId := Some(found.value.id);
      outcome := Pass;
    }

    /**
     * Rent entry: refused without a tenant or for a month already paid; otherwise the new
     * record goes in front of the ledger, becomes the active record, and the confirmation
     * message is the one the text-generation outcome `draft` yields.
     */
    method RentEntry(form: RentForm, freshId: string, paymentDate: string, nowMillis: nat, draft: Draft)
      returns (outcome: Outcome)
      requires freshId != "" && RecordIdUnused(records, freshId)
      modifies this`records, this`activeRecord, this`aiMessage
      ensures outcome == if form.userId == "" then Fail(MissingTenant)
                         else if AlreadyPaid(old(records), form.userId, form.rentMonth) then Fail(DuplicatePaymentForMonth)
                         else Pass
      ensures outcome.Fail? ==> unchanged(this)
      ensures outcome.Pass? ==> var r := NewRecord(freshId, form, paymentDate, nowMillis);
                                && records == [r] + old(records)
                                && activeRecord == Some(r)
                                && aiMessage == ConfirmationMessage(r, draft)
      ensures OnePerMonth(old(records)) ==> OnePerMonth(records)
    {
      if form.userId == "" {
        outcome := Fail(MissingTenant);
      } else if AlreadyPaid(records, form.userId, form.rentMonth) {
        outcome := Fail(DuplicatePaymentForMonth);
      } else {
        var r := NewRecord(freshId, form, paymentDate, nowMillis);
        var message := ConfirmationMessage(r, draft);
        if OnePerMonth(records) {
          PrependKeepsOnePerMonth(records, r);
        }
        records, activeRecord, aiMessage := [r] + records, Some(r), message;
        outcome := Pass;
      }
    }

    /** Saving the tenant-edit dialog replaces the account with the edited one's id; with no tenant open it does nothing. */
    method UpdateTenant(editing: Option<User>)
      modifies this
      ensures editing.None? ==> unchanged(this)
      ensures editing.Some? ==> users == ReplaceById(old(users), editing.value)
      ensures records == old(records) && sessionId == old(sessionId) && currentUser == old(currentUser)
      ensures activeRecord == old(activeRecord) && aiMessage == old(aiMessage)
    {
      if editing.Some? {
        users := ReplaceById(users, editing.value);
      }
    }

    /** Deleting a tenant, once confirmed, removes its account and every record paid under its id. */
    method DeleteTenant(id: string, confirmed: bool)
      modifies this
      ensures !confirmed ==> unchanged(this)
      ensures confirmed ==> users == RemoveById(old(users), id) && records == RemoveRecordsOf(old(records), id)
      ensures confirmed ==> forall other :: other != id ==> RecordsOf(records, other) == RecordsOf(old(records), other)
      ensures sessionId == old(sessionId) && currentUser == old(currentUser)
      ensures activeRecord == old(activeRecord) && aiMessage == old(aiMessage)
      ensures MobileUnique(old(users)) ==> MobileUnique(users)
      ensures OnePerMonth(old(records)) ==> OnePerMonth(records)
    {
      if confirmed {
        if MobileUnique(users) {
          RemoveKeepsUnique(users, id);
        }
        if OnePerMonth(records) {
          RemoveKeepsOnePerMonth(records, id);
        }
        ghost var before := records;
        users := RemoveById(users, id);
        records := RemoveRecordsOf(records, id);
        forall other | other != id
          ensures RecordsOf(records, other) == RecordsOf(before, other)
        {
          RemoveKeepsOthersRecords(before, id, other);
        }
      }
    }
  }
}
