/**
 * The onboarding wizard: the collected account, team and database data,
 * the step order account -> team -> databases -> complete, and the tests
 * that say which steps are complete.
 */
module Onboarding {
  import opened Common

  datatype Step = Account | Team | Databases | Complete

  /** The wizard's step order. */
  const StepOrder: seq<Step> := [Account, Team, Databases, Complete]

  function StepId(s: Step): string
  {
    match s
    case Account => "account"
    case Team => "team"
    case Databases => "databases"
    case Complete => "complete"
  }

  /** `stepOrder.indexOf(step)`: every step occurs, so the index is always found. */
  function IndexOf(s: Step): (i: nat)
    ensures i < |StepOrder| && StepOrder[i] == s
  {
    match s
    case Account => 0
    case Team => 1
    case Databases => 2
    case Complete => 3
  }

  datatype MemberRole = Admin | Member

  datatype TeamMember = TeamMember(email: string, role: MemberRole, name: Option<string>)

  /** A connected Notion database. */
  datatype DatabaseRef = DatabaseRef(id: string, name: string, url: string)

  datatype DatabaseSelection = DatabaseSelection(
    clients: Option<DatabaseRef>,
    projects: Option<DatabaseRef>,
    tasks: Option<DatabaseRef>)

  datatype OnboardingData = OnboardingData(
    firstName: string,
    lastName: string,
    email: string,
    company: string,
    role: string,
    teamMembers: seq<TeamMember>,
    databases: DatabaseSelection)

  /** A `Partial<OnboardingData>`: a field is `Some` exactly when the update supplies it. */
  datatype Updates = Updates(
    firstName: Option<string>,
    lastName: Option<string>,
    email: Option<string>,
    company: Option<string>,
    role: Option<string>,
    teamMembers: Option<seq<TeamMember>>,
    databases: Option<DatabaseSelection>)

  function NoUpdates(): Updates
  {
    Updates(None, None, None, None, None, None, None)
  }

  function InitialData(): OnboardingData
  {
    OnboardingData("", "", "", "", "", [], DatabaseSelection(None, None, None))
  }

  function Pick<T>(update: Option<T>, current: T): T
  {
    if update.Some? then update.value else current
  }

  /** `{ ...prev, ...updates }`. */
  function Merge(prev: OnboardingData, u: Updates): OnboardingData
  {
    OnboardingData(
      Pick(u.firstName, prev.firstName), Pick(u.lastName, prev.lastName),
      Pick(u.email, prev.email), Pick(u.company, prev.company), Pick(u.role, prev.role),
      Pick(u.teamMembers, prev.teamMembers), Pick(u.databases, prev.databases))
  }

  /** Supplied fields take the new value, the others keep theirs; applying an update twice changes nothing more. */
  lemma MergeOverwritesOnlySupplied(prev: OnboardingData, u: Updates)
    ensures var r := Merge(prev, u);
      (u.firstName.Some? ==> r.firstName == u.firstName.value) && (u.firstName.None? ==> r.firstName == prev.firstName)
      && (u.lastName.Some? ==> r.lastName == u.lastName.value) && (u.lastName.None? ==> r.lastName == prev.lastName)
      && (u.email.Some? ==> r.email == u.email.value) && (u.email.None? ==> r.email == prev.email)
      && (u.company.Some? ==> r.company == u.company.value) && (u.company.None? ==> r.company == prev.company)
      && (u.role.Some? ==> r.role == u.role.value) && (u.role.None? ==> r.role == prev.role)
      && (u.teamMembers.Some? ==> r.teamMembers == u.teamMembers.value)
      && (u.teamMembers.None? ==> r.teamMembers == prev.teamMembers)
      && (u.databases.Some? ==> r.databases == u.databases.value)
      && (u.databases.None? ==> r.databases == prev.databases)
    ensures Merge(Merge(prev, u), u) == Merge(prev, u)
    ensures Merge(prev, NoUpdates()) == prev
  {
  }

  /** The step after `s`, or `s` itself at the end. */
  function Next(s: Step): (r: Step)
    ensures IndexOf(s) < |StepOrder| - 1 ==> IndexOf(r) == IndexOf(s) + 1
    ensures s == Complete ==> r == Complete
  {
    var i := IndexOf(s);
    if i < |StepOrder| - 1 then StepOrder[i + 1] else s
  }

  /** The step before `s`, or `s` itself at the start. */
  function Previous(s: Step): (r: Step)
    ensures IndexOf(s) > 0 ==> IndexOf(r) == IndexOf(s) - 1
    ensures s == Account ==> r == Account
  {
    var i := IndexOf(s);
    if i > 0 then StepOrder[i - 1] else s
  }

  /** Going forward and back from any step but the last returns to it, and back then forward from any but the first. */
  lemma PreviousAfterNext(s: Step)
    ensures s != Complete ==> Previous(Next(s)) == s
    ensures s != Account ==> Next(Previous(s)) == s
  {
  }

  /** Moving forward `n` times from the start reaches step `min(n, 3)`. */
  lemma {:induction false} NextReaches(n: nat)
    ensures IndexOf(Iterate(Account, n)) == if n < |StepOrder| then n else |StepOrder| - 1
  {
    if n > 0 {
      NextReaches(n - 1);
    }
  }

  function Iterate(s: Step, n: nat): Step
  {
    if n == 0 then s else Next(Iterate(s, n - 1))
  }

  /**
   * Whether the step with this id is complete: the account once first name,
   * last name, e-mail and company are filled in (the role is not checked),
   * the team always, the databases once all three are connected, and
   * anything else never.
   */
  function IsStepCompleted(data: OnboardingData, stepId: string): (r: bool)
    ensures stepId == "account" ==>
      (r <==> data.firstName != "" && data.lastName != "" && data.email != "" && data.company != "")
    ensures stepId == "team" ==> r
    ensures stepId == "databases" ==>
      (r <==> data.databases.clients.Some? && data.databases.projects.Some? && data.databases.tasks.Some?)
    ensures stepId !in {"account", "team", "databases"} ==> !r
  {
    if stepId == "account" then
      data.firstName != "" && data.lastName != "" && data.email != "" && data.company != ""
    else if stepId == "team" then true
    else if stepId == "databases" then
      data.databases.clients.Some? && data.databases.projects.Some? && data.databases.tasks.Some?
    else false
  }

  /** The complete step is never reported complete, whatever has been entered. */
  lemma CompleteNeverCompleted(data: OnboardingData)
    ensures !IsStepCompleted(data, StepId(Complete))
    ensures IsStepCompleted(data, StepId(Team))
  {
  }

  /** The first name: the text before the first space (`name?.split(' ')[0] || ''`). */
  function FirstNameOf(name: Option<string>): string
  {
    if name.None? then "" else Split(name.value, ' ')[0]
  }

  /** The last name: the remaining words joined by spaces (`name?.split(' ').slice(1).join(' ') || ''`). */
  function LastNameOf(name: Option<string>): string
  {
    if name.None? then "" else Join(Split(name.value, ' ')[1..], ' ')
  }

  /** Pre-filling from the signed-in user replaces the two name fields and the e-mail only. */
  function Prefill(prev: OnboardingData, userName: Option<string>, userEmail: string): (r: OnboardingData)
    ensures r.company == prev.company && r.role == prev.role
    ensures r.teamMembers == prev.teamMembers && r.databases == prev.databases
    ensures r.email == userEmail
  {
    prev.(firstName := FirstNameOf(userName), lastName := LastNameOf(userName), email := userEmail)
  }

  /**
   * A name with a space splits into a first and last name that rejoin to it;
   * a name without one is all first name; no name leaves both empty.
   */
  lemma {:induction false} PrefillSplitsName(name: string)
    ensures ' ' in name ==> FirstNameOf(Some(name)) + " " + LastNameOf(Some(name)) == name
    ensures ' ' !in name ==> FirstNameOf(Some(name)) == name && LastNameOf(Some(name)) == ""
    ensures ' ' !in FirstNameOf(Some(name))
    ensures FirstNameOf(None) == "" && LastNameOf(None) == ""
  {
    var parts := Split(name, ' ');
    JoinSplit(name, ' ');
    if ' ' in name {
      assert Join(parts, ' ') == parts[0] + [' '] + Join(parts[1..], ' ');
    }
  }

  /** The wizard page's state: the current step and the data collected so far. */
  class OnboardingWizard {
    var currentStep: Step
    var data: OnboardingData

    constructor ()
      ensures currentStep == Account && data == InitialData()
    {
      currentStep := Account;
      data := InitialData();
    }

    method UpdateOnboardingData(updates: Updates)
      modifies this
      ensures data == Merge(old(data), updates) && currentStep == old(currentStep)
    {
      data := Merge(data, updates);
    }

    method PrefillFromUser(userName: Option<string>, userEmail: string)
      modifies this
      ensures data == Prefill(old(data), userName, userEmail) && currentStep == old(currentStep)
    {
      data := Prefill(data, userName, userEmail);
    }

    method NextStep()
      modifies this
      ensures currentStep == Next(old(currentStep)) && data == old(data)
    {
      var currentIndex := IndexOf(currentStep);
      if currentIndex < |StepOrder| - 1 {
        currentStep := StepOrder[currentIndex + 1];
      }
    }

    method PreviousStep()
      modifies this
      ensures currentStep == Previous(old(currentStep)) && data == old(data)
    {
      var currentIndex := IndexOf(currentStep);
      if currentIndex > 0 {
        currentStep := StepOrder[currentIndex - 1];
      }
    }

    /** Any step may be chosen, whether or not the earlier ones are complete. */
    method SkipToStep(step: Step)
      modifies this
      ensures currentStep == step && data == old(data)
    {
      currentStep := step;
    }

    /** The position of the current step in the step list. */
    function GetCurrentStepIndex(): (i: nat)
      reads this
      ensures i < |StepOrder| && StepOrder[i] == currentStep
    {
      IndexOf(currentStep)
    }
  }
}
