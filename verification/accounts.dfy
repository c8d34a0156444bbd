/**
 * Properties of the account routes that span several calls: a rejection
 * blocks re-registration for a day, and a new account can sign in.
 */
module Accounts {
  import opened Wrappers
  import opened Models
  import opened Db
  import opened Registration
  import A = Admin

  /** Replacing profile `i` by one with the same owner keeps `findOne({userId})` pointing at `i`. */
  lemma ReplaceKeepsOwnerLookup(providers: seq<ProviderProfile>, i: nat, p': ProviderProfile, userId: UserId)
    requires FindProfileOf(providers, userId) == Some(i)
    requires p'.userId == userId
    ensures FindProfileOf(providers[i := p'], userId) == Some(i)
  {
    var r := FindProfileOf(providers[i := p'], userId);
    assert providers[i := p'][i].userId == userId;
    assert r.Some? ==> r.value >= i;
  }

  /**
   * A provider whose profile an admin rejects at `rejectedAt`, and who then
   * registers again with the same e-mail less than 24 hours later, is told
   * to reapply later, and the registration stores nothing.
   */
  lemma RejectThenReregister(
    s: Store, pid: ProviderId, reason: Option<string>, rejectedAt: int, form: RegisterForm, svc: Services)
    requires form.email.Some? && |FailedFields(form, svc.isEmail)| == 0
    requires FindUserByEmail(s.users, form.email.value).Some?
    requires s.users[FindUserByEmail(s.users, form.email.value).value].role == Provider
    requires FindProfileOf(s.providers, s.users[FindUserByEmail(s.users, form.email.value).value].id).Some?
    requires FindProfile(s.providers, pid) ==
               FindProfileOf(s.providers, s.users[FindUserByEmail(s.users, form.email.value).value].id)
    requires svc.now - rejectedAt < DayMillis
    ensures var s' := A.Reject(s, pid, reason, rejectedAt).store;
            Register(s', form, svc) == Reply(s', [], Err(HttpError(400, Message(ReapplyLater))))
  {
    var existing := s.users[FindUserByEmail(s.users, form.email.value).value];
    var i := FindProfile(s.providers, pid).value;
    var rep := A.Reject(s, pid, reason, rejectedAt);
    var s' := rep.store;
    assert s'.users == s.users;
    ReplaceKeepsOwnerLookup(s.providers, i, rep.outcome.value, existing.id);
    assert FindProfileOf(s'.providers, existing.id) == Some(i);
    assert RecentlyRejected(s', existing, svc.now);
  }

  /**
   * An account that registration has just created can sign in with the
   * password it was registered with, whatever its role.
   */
  lemma RegisterThenLogin(s: Store, form: RegisterForm, svc: Services, matches: (string, string) -> bool)
    requires Register(s, form, svc).outcome.Ok?
    requires form.password.Some? && matches(form.password.value, svc.hash(form.password.value))
    ensures var rep := Register(s, form, svc);
            Login(rep.store.users, form.email, form.password, svc.isEmail, matches) == Ok(rep.outcome.value)
  {
    var rep := Register(s, form, svc);
    var user := rep.outcome.value;
    assert FieldValid(form, svc.isEmail, "email") && FieldValid(form, svc.isEmail, "password");
    var users := rep.store.users;
    assert users == s.users + [user];
    assert users[|s.users|] == user;
    var ui := FindUserByEmail(users, form.email.value);
    assert ui == Some(|s.users|) by {
      assert ui.Some? ==> ui.value >= |s.users|;
    }
  }
}
