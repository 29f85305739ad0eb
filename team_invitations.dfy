/**
 * The team-invitation step of onboarding: the invite form, the checks an
 * invited e-mail must pass (in a fixed order, first failure reported), and
 * appending and removing team members in the wizard's data.
 */
module TeamInvitations {
  import opened Common
  import opened Onboarding

  const EmailRequired: string := "Email is required"
  const InvalidEmail: string := "Please enter a valid email address"
  const AlreadyAdded: string := "This email is already added"
  const CannotInviteSelf: string := "You cannot invite yourself"

  function Emails(members: seq<TeamMember>): (r: seq<string>)
    ensures |r| == |members| && forall i :: 0 <= i < |r| ==> r[i] == members[i].email
  {
    MapSeq((m: TeamMember) => m.email, members)
  }

  /**
   * The error for inviting `email`, or none: a blank address, then one not
   * matching the pattern, then one already invited, then the user's own.
   */
  function InviteError(members: seq<TeamMember>, ownEmail: string, email: string): (r: Option<string>)
    ensures Blank(email) <==> r == Some(EmailRequired)
    ensures r == Some(InvalidEmail) <==> !Blank(email) && !IsEmail(email)
    ensures r == Some(AlreadyAdded) <==> !Blank(email) && IsEmail(email) && email in Emails(members)
    ensures r == Some(CannotInviteSelf) <==>
      !Blank(email) && IsEmail(email) && email !in Emails(members) && email == ownEmail
    ensures r.None? <==> !Blank(email) && IsEmail(email) && email !in Emails(members) && email != ownEmail
  {
    if Trim(email) == "" then Some(EmailRequired)
    else if !IsEmail(email) then Some(InvalidEmail)
    else if exists i :: 0 <= i < |members| && members[i].email == email then Some(AlreadyAdded)
    else if email == ownEmail then Some(CannotInviteSelf)
    else None
  }

  /** The member an accepted invitation appends: the name is trimmed, and absent when blank. */
  function NewMember(email: string, role: MemberRole, name: string): (m: TeamMember)
    ensures m.email == email && m.role == role
    ensures m.name.None? <==> Blank(name)
    ensures m.name.Some? ==> m.name.value == Trim(name)
  {
    var trimmed := Trim(name);
    TeamMember(email, role, if trimmed == "" then None else Some(trimmed))
  }

  /** One invitation attempt: the typed e-mail, role and name. */
  datatype Invite = Invite(email: string, role: MemberRole, name: string)

  /** The member list after one attempt: unchanged on an error, one member longer otherwise. */
  function Attempt(members: seq<TeamMember>, ownEmail: string, a: Invite): (r: seq<TeamMember>)
    ensures InviteError(members, ownEmail, a.email).Some? ==> r == members
    ensures InviteError(members, ownEmail, a.email).None? ==> r == members + [NewMember(a.email, a.role, a.name)]
  {
    if InviteError(members, ownEmail, a.email).Some? then members
    else members + [NewMember(a.email, a.role, a.name)]
  }

  /** The member list after a series of attempts, in order. */
  function AttemptAll(members: seq<TeamMember>, ownEmail: string, attempts: seq<Invite>): seq<TeamMember>
  {
    if attempts == [] then members
    else Attempt(AttemptAll(members, ownEmail, attempts[..|attempts| - 1]), ownEmail, attempts[|attempts| - 1])
  }

  /** An accepted invitation keeps the e-mails distinct. */
  lemma AttemptKeepsDistinct(members: seq<TeamMember>, ownEmail: string, a: Invite)
    requires NoDuplicates(Emails(members))
    ensures NoDuplicates(Emails(Attempt(members, ownEmail, a)))
  {
    var r := Attempt(members, ownEmail, a);
    if InviteError(members, ownEmail, a.email).None? {
      assert Emails(r) == Emails(members) + [a.email];
    }
  }

  /** A list built only by invitations from no members has distinct e-mails, none of them the user's own, all well formed. */
  lemma {:induction false} AttemptAllDistinct(ownEmail: string, attempts: seq<Invite>)
    ensures var r := AttemptAll([], ownEmail, attempts);
      NoDuplicates(Emails(r))
      && forall i :: 0 <= i < |r| ==> r[i].email != ownEmail && IsEmail(r[i].email)
  {
    if attempts != [] {
      var prev := AttemptAll([], ownEmail, attempts[..|attempts| - 1]);
      AttemptAllDistinct(ownEmail, attempts[..|attempts| - 1]);
      AttemptKeepsDistinct(prev, ownEmail, attempts[|attempts| - 1]);
    }
  }

  /** Removing an entry keeps the e-mails distinct. */
  lemma RemoveKeepsDistinct(members: seq<TeamMember>, index: int)
    requires NoDuplicates(Emails(members))
    ensures NoDuplicates(Emails(DropIndex(members, index)))
  {
    var r := DropIndex(members, index);
    if 0 <= index < |members| {
      forall i, j | 0 <= i < j < |r| ensures r[i].email != r[j].email {
        var i' := if i < index then i else i + 1;
        var j' := if j < index then j else j + 1;
        assert r[i] == members[i'] && r[j] == members[j'] && i' < j';
      }
    }
  }

  /** The invite form's own state; the member list lives in the wizard's data. */
  class TeamInvitationForm {
    var newMemberEmail: string
    var newMemberName: string
    var newMemberRole: MemberRole
    var errors: map<string, string>

    constructor ()
      ensures newMemberEmail == "" && newMemberName == "" && newMemberRole == Member && errors == map[]
    {
      newMemberEmail := "";
      newMemberName := "";
      newMemberRole := Member;
      errors := map[];
    }

    /**
     * On an error only the form's error is set; otherwise one member is
     * appended to the wizard's team list, nothing else in its data changes,
     * and the form is reset.
     */
    method AddTeamMember(wizard: OnboardingWizard)
      modifies this, wizard
      ensures var err := InviteError(old(wizard.data.teamMembers), old(wizard.data.email), old(newMemberEmail));
        && (err.Some? ==>
              errors == map["email" := err.value]
              && wizard.data == old(wizard.data)
              && newMemberEmail == old(newMemberEmail) && newMemberName == old(newMemberName)
              && newMemberRole == old(newMemberRole))
        && (err.None? ==>
              wizard.data == old(wizard.data).(teamMembers := old(wizard.data.teamMembers)
                                 + [NewMember(old(newMemberEmail), old(newMemberRole), old(newMemberName))])
              && newMemberEmail == "" && newMemberName == "" && newMemberRole == Member && errors == map[])
      ensures wizard.currentStep == old(wizard.currentStep)
    {
      var err := InviteError(wizard.data.teamMembers, wizard.data.email, newMemberEmail);
      if err.Some? {
        errors := map["email" := err.value];
        return;
      }
      var updatedMembers := wizard.data.teamMembers + [NewMember(newMemberEmail, newMemberRole, newMemberName)];
      wizard.UpdateOnboardingData(NoUpdates().(teamMembers := Some(updatedMembers)));
      newMemberEmail := "";
      newMemberName := "";
      newMemberRole := Member;
      errors := map[];
    }

    /** Removes exactly the entry at `index` (no entry when out of range), keeping the others in order. */
    method RemoveMember(wizard: OnboardingWizard, index: int)
      modifies wizard
      ensures wizard.data == old(wizard.data).(teamMembers := DropIndex(old(wizard.data.teamMembers), index))
      ensures wizard.currentStep == old(wizard.currentStep)
    {
      var updatedMembers := DropIndex(wizard.data.teamMembers, index);
      wizard.UpdateOnboardingData(NoUpdates().(teamMembers := Some(updatedMembers)));
    }
  }
}
