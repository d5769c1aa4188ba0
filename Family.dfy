/** The family page: adding members to the household, the shared challenges, assigning a
    member to a challenge and back, and completing a challenge. */
module Family {
  import opened Wrappers
  import opened Types
  import AppContext

  // ---------------------------------------------------------------------------
  // Trimming a name
  // ---------------------------------------------------------------------------

  /** The characters `String.prototype.trim` removes: white space and line terminators. */
  predicate IsWhiteSpace(c: char) {
    ('\U{0009}' <= c <= '\U{000D}') || c == ' ' || c == '\U{00A0}' || c == '\U{1680}'
    || ('\U{2000}' <= c <= '\U{200A}') || c == '\U{2028}' || c == '\U{2029}'
    || c == '\U{202F}' || c == '\U{205F}' || c == '\U{3000}' || c == '\U{FEFF}'
  }

  predicate Blank(s: string) {
    forall i :: 0 <= i < |s| ==> IsWhiteSpace(s[i])
  }

  /** How many white-space characters `s` starts with. */
  function LeadingBlanks(s: string): (n: nat)
    ensures n <= |s|
    ensures n < |s| ==> !IsWhiteSpace(s[n])
  {
    if s == [] || !IsWhiteSpace(s[0]) then 0 else 1 + LeadingBlanks(s[1..])
  }

  /** How many white-space characters `s` ends with. */
  function TrailingBlanks(s: string): (n: nat)
    ensures n <= |s|
    ensures n < |s| ==> !IsWhiteSpace(s[|s| - 1 - n])
  {
    if s == [] || !IsWhiteSpace(s[|s| - 1]) then 0 else 1 + TrailingBlanks(s[..|s| - 1])
  }

  /** The leading run `LeadingBlanks` counts is white space. */
  lemma {:induction false} LeadingBlanksAreBlank(s: string)
    ensures Blank(s[..LeadingBlanks(s)])
  {
    if s != [] && IsWhiteSpace(s[0]) {
      LeadingBlanksAreBlank(s[1..]);
      forall i | 0 < i < LeadingBlanks(s)
        ensures IsWhiteSpace(s[i])
      {
        assert s[i] == s[1..][..LeadingBlanks(s[1..])][i - 1];
      }
    }
  }

  /** The trailing run `TrailingBlanks` counts is white space. */
  lemma {:induction false} TrailingBlanksAreBlank(s: string)
    ensures Blank(s[|s| - TrailingBlanks(s)..])
  {
    if s != [] && IsWhiteSpace(s[|s| - 1]) {
      var init := s[..|s| - 1];
      TrailingBlanksAreBlank(init);
      var n := TrailingBlanks(s);
      forall i | |s| - n <= i < |s| - 1
        ensures IsWhiteSpace(s[i])
      {
        assert s[i] == init[|init| - TrailingBlanks(init)..][i - (|s| - n)];
      }
    }
  }

  /** `trim`: the string without its leading and trailing white space. */
  function Trim(s: string): (r: string)
    ensures var k := LeadingBlanks(s);
      k + |r| <= |s| && r == s[k..k + |r|]
    ensures r == [] || (!IsWhiteSpace(r[0]) && !IsWhiteSpace(r[|r| - 1]))
  {
    var t := s[LeadingBlanks(s)..];
    t[..|t| - TrailingBlanks(t)]
  }

  /** What trimming drops is white space only. */
  lemma TrimDropsWhiteSpace(s: string)
    ensures var k := LeadingBlanks(s);
      Blank(s[..k]) && Blank(s[k + |Trim(s)|..])
  {
    var k := LeadingBlanks(s);
    var t := s[k..];
    LeadingBlanksAreBlank(s);
    TrailingBlanksAreBlank(t);
    assert s[k + |Trim(s)|..] == t[|t| - TrailingBlanks(t)..];
  }

  /** A name trims to nothing exactly when it is all white space. */
  lemma TrimEmptyIffBlank(s: string)
    ensures Trim(s) == [] <==> Blank(s)
  {
    var k := LeadingBlanks(s);
    if Trim(s) == [] {
      TrimDropsWhiteSpace(s);
      assert s == s[..k] + s[k..];
    } else {
      assert Trim(s)[0] == s[k];
    }
  }

  /** Trimming twice is trimming once. */
  lemma TrimIdempotent(s: string)
    ensures Trim(Trim(s)) == Trim(s)
  {
  }

  // ---------------------------------------------------------------------------
  // The household
  // ---------------------------------------------------------------------------

  /** The household the page works on when the application has none. */
  const DefaultHousehold: Household := Household("default", "My Household", [], [], [], 0)

  /** `state.currentHousehold || { ... }`: the stored household, or an empty one. */
  function HouseholdOrDefault(current: Option<Household>): (h: Household)
    ensures current.Some? ==> h == current.value
    ensures current.None? ==> h.id == "default" && h.name == "My Household"
    ensures current.None? ==> h.members == [] && h.monthlyEntries == [] && h.badges == [] && h.totalPoints == 0
  {
    if current.Some? then current.value else DefaultHousehold
  }

  /** `addFamilyMember`: for a name that is not blank, the household (or an empty one) with a
      new plain member appended; for a blank name nothing is dispatched. The identifier is the
      caller's clock reading. */
  function HouseholdWithMember(current: Option<Household>, name: string, id: string): (r: Option<Household>)
    ensures r.None? <==> Blank(name)
    ensures r.Some? ==> r.value.members == HouseholdOrDefault(current).members + [User(id, Trim(name), Member, None)]
    ensures r.Some? ==> r.value == HouseholdOrDefault(current).(members := r.value.members)
  {
    TrimEmptyIffBlank(name);
    if Trim(name) == [] then None
    else
      var h := HouseholdOrDefault(current);
      Some(h.(members := h.members + [User(id, Trim(name), Member, None)]))
  }

  /** Adding a member keeps the existing members, in order, and adds exactly one more, whose
      name has no surrounding white space and which is never an administrator. */
  lemma AddKeepsMembers(current: Option<Household>, name: string, id: string)
    requires !Blank(name)
    ensures var h := HouseholdWithMember(current, name, id).value;
      && |h.members| == |HouseholdOrDefault(current).members| + 1
      && h.members[..|h.members| - 1] == HouseholdOrDefault(current).members
      && h.members[|h.members| - 1].role == Member
      && h.members[|h.members| - 1].name != []
      && !IsWhiteSpace(h.members[|h.members| - 1].name[0])
  {
    TrimEmptyIffBlank(name);
    var h := HouseholdWithMember(current, name, id).value;
    assert h.members[..|h.members| - 1] == HouseholdOrDefault(current).members;
  }

  /** A first member added without a household founds the default household. */
  lemma FirstMemberFoundsHousehold(name: string, id: string)
    requires !Blank(name)
    ensures var h := HouseholdWithMember(None, name, id).value;
      h.id == "default" && h.name == "My Household" && h.totalPoints == 0 && |h.members| == 1
  {
  }

  // ---------------------------------------------------------------------------
  // Challenges
  // ---------------------------------------------------------------------------

  /** The three challenges a family starts with. */
  function DefaultChallenges(): (cs: seq<Challenge>)
    ensures |cs| == 3
  {
    [
      Challenge("1", "LED Light Switch", "Replace 5 incandescent bulbs with LED bulbs",
        Energy, 50, 7, 5, false, None),
      Challenge("2", "Bike to Work Week", "Use bicycle or public transport for commuting",
        Transport, 75, 7, 5, false, None),
      Challenge("3", "Meatless Monday", "Have vegetarian meals for 4 Mondays",
        DietCategory, 40, 28, 4, false, None)
    ]
  }

  /** `challenges.filter(c => !c.completed).length`. */
  function ActiveCount(cs: seq<Challenge>): (n: nat)
    ensures n <= |cs|
    ensures n == 0 <==> forall i :: 0 <= i < |cs| ==> cs[i].completed
    ensures n == |cs| <==> forall i :: 0 <= i < |cs| ==> !cs[i].completed
  {
    if cs == [] then 0
    else (if cs[0].completed then 0 else 1) + ActiveCount(cs[1..])
  }

  /** The default challenges have distinct identifiers, are unassigned, and are all active. */
  lemma DefaultChallengesFresh()
    ensures forall i, j :: 0 <= i < j < |DefaultChallenges()| ==> DefaultChallenges()[i].id != DefaultChallenges()[j].id
    ensures forall i :: 0 <= i < |DefaultChallenges()| ==> DefaultChallenges()[i].assignedTo.None?
    ensures ActiveCount(DefaultChallenges()) == 3
  {
  }

  /** `assignedTo.filter(id => id !== memberId)`. */
  function Without(ids: seq<string>, memberId: string): (r: seq<string>)
    ensures |r| <= |ids|
    ensures forall x :: x in r <==> x in ids && x != memberId
    ensures memberId !in ids ==> r == ids
  {
    if ids == [] then []
    else
      var init, last := ids[..|ids| - 1], ids[|ids| - 1];
      assert ids == init + [last];
      Without(init, memberId) + (if last == memberId then [] else [last])
  }

  /** The assignment list, reading an absent one as empty. */
  function Assigned(c: Challenge): seq<string> {
    c.assignedTo.GetOr([])
  }

  /** The toggle on one challenge: remove the member if assigned, else append them. */
  function Toggle(c: Challenge, memberId: string): (r: Challenge)
    ensures r == c.(assignedTo := r.assignedTo) && r.assignedTo.Some?
    ensures memberId in Assigned(c) ==> r.assignedTo.value == Without(Assigned(c), memberId)
    ensures memberId !in Assigned(c) ==> r.assignedTo.value == Assigned(c) + [memberId]
  {
    var ids := Assigned(c);
    if memberId in ids then c.(assignedTo := Some(Without(ids, memberId)))
    else c.(assignedTo := Some(ids + [memberId]))
  }

  /** After the toggle the member is assigned exactly when they were not before; nobody else's
      assignment changes. */
  lemma ToggleFlips(c: Challenge, memberId: string)
    ensures memberId in Assigned(Toggle(c, memberId)) <==> memberId !in Assigned(c)
    ensures forall x :: x != memberId ==> (x in Assigned(Toggle(c, memberId)) <==> x in Assigned(c))
  {
  }

  /** Toggling a member twice restores the assignment list, with an absent list read as
      empty; it restores the challenge itself when the list was present without the member. */
  lemma ToggleTwice(c: Challenge, memberId: string)
    ensures memberId !in Assigned(c) ==> Assigned(Toggle(Toggle(c, memberId), memberId)) == Assigned(c)
    ensures memberId in Assigned(c) ==>
              Assigned(Toggle(Toggle(c, memberId), memberId)) == Without(Assigned(c), memberId) + [memberId]
    ensures c.assignedTo.Some? && memberId !in c.assignedTo.value ==> Toggle(Toggle(c, memberId), memberId) == c
  {
    var once := Assigned(Toggle(c, memberId));
    if memberId !in Assigned(c) {
      WithoutAppended(Assigned(c), memberId);
    }
  }

  /** Removing a member that was just appended gives back the list. */
  lemma {:induction false} WithoutAppended(ids: seq<string>, memberId: string)
    requires memberId !in ids
    ensures Without(ids + [memberId], memberId) == ids
  {
    var s := ids + [memberId];
    assert s[..|s| - 1] == ids;
  }

  /** `assignChallenge`: toggle the member on every challenge with the given identifier. */
  function ToggleAssignments(cs: seq<Challenge>, challengeId: string, memberId: string): (r: seq<Challenge>)
    ensures |r| == |cs|
    ensures forall i :: 0 <= i < |cs| && cs[i].id == challengeId ==> r[i] == Toggle(cs[i], memberId)
    ensures forall i :: 0 <= i < |cs| && cs[i].id != challengeId ==> r[i] == cs[i]
  {
    if cs == [] then []
    else
      var c := if cs[0].id == challengeId then Toggle(cs[0], memberId) else cs[0];
      [c] + ToggleAssignments(cs[1..], challengeId, memberId)
  }

  /** Assigning changes no challenge's completion, so the active count stays. */
  lemma {:induction false} AssignKeepsActiveCount(cs: seq<Challenge>, challengeId: string, memberId: string)
    ensures ActiveCount(ToggleAssignments(cs, challengeId, memberId)) == ActiveCount(cs)
  {
    if cs != [] {
      AssignKeepsActiveCount(cs[1..], challengeId, memberId);
    }
  }

  /** Assigning the same member to the same challenge twice restores every assignment list
      (an absent one read as empty). */
  lemma AssignTwice(cs: seq<Challenge>, challengeId: string, memberId: string, i: nat)
    requires i < |cs|
    ensures memberId !in Assigned(cs[i]) ==>
              Assigned(ToggleAssignments(ToggleAssignments(cs, challengeId, memberId), challengeId, memberId)[i]) == Assigned(cs[i])
  {
    if cs[i].id == challengeId {
      ToggleTwice(cs[i], memberId);
    }
  }

  /** `completeChallenge`: mark every challenge with the given identifier completed. */
  function MarkCompleted(cs: seq<Challenge>, challengeId: string): (r: seq<Challenge>)
    ensures |r| == |cs|
    ensures forall i :: 0 <= i < |cs| && cs[i].id == challengeId ==> r[i] == cs[i].(completed := true)
    ensures forall i :: 0 <= i < |cs| && cs[i].id != challengeId ==> r[i] == cs[i]
  {
    if cs == [] then []
    else
      var c := if cs[0].id == challengeId then cs[0].(completed := true) else cs[0];
      [c] + MarkCompleted(cs[1..], challengeId)
  }

  /** Completing is idempotent. */
  lemma CompleteIdempotent(cs: seq<Challenge>, challengeId: string)
    ensures MarkCompleted(MarkCompleted(cs, challengeId), challengeId) == MarkCompleted(cs, challengeId)
  {
  }

  /** Completing never raises the active count, and lowers it exactly when an active
      challenge has the identifier. */
  lemma {:induction false} CompleteLowersActiveCount(cs: seq<Challenge>, challengeId: string)
    ensures ActiveCount(MarkCompleted(cs, challengeId)) <= ActiveCount(cs)
    ensures ActiveCount(MarkCompleted(cs, challengeId)) < ActiveCount(cs) <==>
              exists i :: 0 <= i < |cs| && cs[i].id == challengeId && !cs[i].completed
  {
    if cs != [] {
      CompleteLowersActiveCount(cs[1..], challengeId);
      if exists i :: 0 <= i < |cs| && cs[i].id == challengeId && !cs[i].completed {
        var i :| 0 <= i < |cs| && cs[i].id == challengeId && !cs[i].completed;
        if i > 0 {
          assert cs[1..][i - 1] == cs[i];
        }
      }
    }
  }

  /** With distinct identifiers, completing an active challenge lowers the count by one. */
  lemma {:induction false} CompleteOneActive(cs: seq<Challenge>, i: nat)
    requires i < |cs| && !cs[i].completed
    requires forall j :: 0 <= j < |cs| && j != i ==> cs[j].id != cs[i].id
    ensures ActiveCount(MarkCompleted(cs, cs[i].id)) == ActiveCount(cs) - 1
  {
    if i > 0 {
      CompleteOneActive(cs[1..], i - 1);
    } else {
      CompleteNoMatch(cs[1..], cs[i].id);
    }
  }

  /** Completing an identifier no challenge has changes nothing. */
  lemma CompleteNoMatch(cs: seq<Challenge>, challengeId: string)
    requires forall j :: 0 <= j < |cs| ==> cs[j].id != challengeId
    ensures MarkCompleted(cs, challengeId) == cs
  {
  }

  // ---------------------------------------------------------------------------
  // The page
  // ---------------------------------------------------------------------------

  /** The family page's state together with the application state it dispatches to. */
  class FamilyPage {
    var app: AppContext.AppState
    var challenges: seq<Challenge>
    var newMemberName: string
    var showAddMember: bool

    /** Mounting: the saved challenges if any were saved, else the default ones. */
    constructor(app: AppContext.AppState, saved: Option<seq<Challenge>>)
      ensures this.app == app
      ensures challenges == (if saved.Some? then saved.value else DefaultChallenges())
      ensures newMemberName == "" && !showAddMember
    {
      this.app := app;
      challenges := if saved.Some? then saved.value else DefaultChallenges();
      newMemberName := "";
      showAddMember := false;
    }

    /** The household the page shows. */
    method Household() returns (h: Household)
      ensures app.currentHousehold.Some? ==> h == app.currentHousehold.value
      ensures app.currentHousehold.None? ==> h == DefaultHousehold
    {
      h := HouseholdOrDefault(app.currentHousehold);
    }

    /** The "Active Challenges" figure. */
    method ActiveChallenges() returns (n: nat)
      ensures n == ActiveCount(challenges)
      ensures n <= |challenges|
    {
      n := ActiveCount(challenges);
    }

    method TypeName(name: string)
      modifies this
      ensures newMemberName == name
      ensures app == old(app) && challenges == old(challenges) && showAddMember == old(showAddMember)
    {
      newMemberName := name;
    }

    method OpenAddMember()
      modifies this
      ensures showAddMember
      ensures app == old(app) && challenges == old(challenges) && newMemberName == old(newMemberName)
    {
      showAddMember := true;
    }

    method CancelAddMember()
      modifies this
      ensures !showAddMember && newMemberName == ""
      ensures app == old(app) && challenges == old(challenges)
    {
      showAddMember := false;
      newMemberName := "";
    }

    /** `addFamilyMember`: a blank name changes nothing; otherwise the updated household is
        dispatched, and the form is cleared and closed. */
    method AddFamilyMember(id: string)
      modifies this
      ensures Blank(old(newMemberName)) ==>
                (app == old(app) && newMemberName == old(newMemberName) && showAddMember == old(showAddMember))
      ensures !Blank(old(newMemberName)) ==> (
                app == AppContext.AppReducer(old(app),
                  AppContext.SetHousehold(HouseholdWithMember(old(app.currentHousehold), old(newMemberName), id)))
                && newMemberName == "" && !showAddMember)
      ensures challenges == old(challenges)
    {
      var updated := HouseholdWithMember(app.currentHousehold, newMemberName, id);
      if updated.Some? {
        app := AppContext.AppReducer(app, AppContext.SetHousehold(updated));
        newMemberName := "";
        showAddMember := false;
      }
    }

    /** `assignChallenge`. */
    method AssignChallenge(challengeId: string, memberId: string)
      modifies this
      ensures challenges == ToggleAssignments(old(challenges), challengeId, memberId)
      ensures app == old(app) && newMemberName == old(newMemberName) && showAddMember == old(showAddMember)
    {
      challenges := ToggleAssignments(challenges, challengeId, memberId);
    }

    /** `completeChallenge`. */
    method CompleteChallenge(challengeId: string)
      modifies this
      ensures challenges == MarkCompleted(old(challenges), challengeId)
      ensures app == old(app) && newMemberName == old(newMemberName) && showAddMember == old(showAddMember)
    {
      challenges := MarkCompleted(challenges, challengeId);
    }
  }
}
