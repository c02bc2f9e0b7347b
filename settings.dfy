/**
 * The club settings panel of components/Settings.tsx: the invite code
 * shown, who may edit, the edit form's state, and the order of leaving
 * and navigating away.
 */
module SettingsPanel {
  import opened Wrappers
  import opened Types
  import opened Api
  import opened Store
  import opened Provider

  /** `clubs.find(c => c.id === clubId)`. */
  function FindClub(clubs: seq<Club>, clubId: string): (r: Option<Club>)
    ensures r.Some? ==> r.value in clubs && r.value.id == clubId
    ensures r.None? ==> forall i :: 0 <= i < |clubs| ==> clubs[i].id != clubId
    ensures r.Some? ==> exists i :: 0 <= i < |clubs| && clubs[i] == r.value && forall j :: 0 <= j < i ==> clubs[j].id != clubId
    decreases |clubs|
  {
    if clubs == [] then None
    else if clubs[0].id == clubId then Some(clubs[0])
    else
      var r := FindClub(clubs[1..], clubId);
      if r.Some? then
        ghost var i :| 0 <= i < |clubs[1..]| && clubs[1..][i] == r.value && forall j :: 0 <= j < i ==> clubs[1..][j].id != clubId;
        assert clubs[i + 1] == clubs[1..][i];
        r
      else r
  }

  /** `club?.code || clubId`: the invite code, or the club id when the club has none or is not loaded. */
  function ClubCode(club: Option<Club>, clubId: string): (code: string)
    ensures club.Some? && club.value.code != "" ==> code == club.value.code
    ensures club.None? || club.value.code == "" ==> code == clubId
  {
    if club.Some? && club.value.code != "" then club.value.code else clubId
  }

  /** `currentUser && club && currentUser.id === club.createdBy`. */
  function IsCreator(currentUser: Option<User>, club: Option<Club>): (r: bool)
    ensures r <==> currentUser.Some? && club.Some? && currentUser.value.id == club.value.createdBy
  {
    currentUser.Some? && club.Some? && currentUser.value.id == club.value.createdBy
  }

  /**
   * The invite code the panel shows for `clubId`: the code of the first
   * listed club with that id when it has one, and the id itself when that
   * club has no code or no listed club has the id.
   */
  lemma InviteCodeShown(clubs: seq<Club>, clubId: string)
    ensures forall i :: 0 <= i < |clubs| && clubs[i].id == clubId && (forall j :: 0 <= j < i ==> clubs[j].id != clubId) ==>
      ClubCode(FindClub(clubs, clubId), clubId) == if clubs[i].code != "" then clubs[i].code else clubId
    ensures (forall i :: 0 <= i < |clubs| ==> clubs[i].id != clubId) ==> ClubCode(FindClub(clubs, clubId), clubId) == clubId
  {
    forall i | 0 <= i < |clubs| && clubs[i].id == clubId && (forall j :: 0 <= j < i ==> clubs[j].id != clubId)
      ensures FindClub(clubs, clubId) == Some(clubs[i])
    {
      FirstClubFound(clubs, clubId, i);
    }
  }

  /**
   * The edit form is offered exactly to a signed-in user who created the
   * first listed club with `clubId`; nobody may edit a club that is not
   * listed.
   */
  lemma CreatorMayEdit(currentUser: Option<User>, clubs: seq<Club>, clubId: string)
    ensures forall i :: 0 <= i < |clubs| && clubs[i].id == clubId && (forall j :: 0 <= j < i ==> clubs[j].id != clubId) ==>
      (IsCreator(currentUser, FindClub(clubs, clubId)) <==> currentUser.Some? && currentUser.value.id == clubs[i].createdBy)
    ensures (forall i :: 0 <= i < |clubs| ==> clubs[i].id != clubId) ==> !IsCreator(currentUser, FindClub(clubs, clubId))
  {
    forall i | 0 <= i < |clubs| && clubs[i].id == clubId && (forall j :: 0 <= j < i ==> clubs[j].id != clubId)
      ensures FindClub(clubs, clubId) == Some(clubs[i])
    {
      FirstClubFound(clubs, clubId, i);
    }
  }

  /** `FindClub` returns the club at the first index holding the id. */
  lemma {:induction false} FirstClubFound(clubs: seq<Club>, clubId: string, i: nat)
    requires i < |clubs| && clubs[i].id == clubId
    requires forall j :: 0 <= j < i ==> clubs[j].id != clubId
    ensures FindClub(clubs, clubId) == Some(clubs[i])
    decreases i
  {
    if i > 0 {
      FirstClubFound(clubs[1..], clubId, i - 1);
    }
  }

  /** The form field a club value starts from: `club?.field || ''`. */
  function NameOf(club: Option<Club>): string {
    if club.Some? then club.value.name else ""
  }

  function DescriptionOf(club: Option<Club>): string {
    if club.Some? then club.value.description else ""
  }

  function ActionOf(club: Option<Club>): string {
    if club.Some? then club.value.actionName else ""
  }

  /**
   * One mounted settings panel. `clubId` is the current prop: the page
   * renders the panel without a `key`, so a move to another club while
   * the tab is open keeps this instance, and its form state, which
   * `useState` initialised once, stays as it was.
   */
  class Settings {
    var clubId: string
    var isEditing: bool
    var editName: string
    var editDesc: string
    var editAction: string

    constructor(clubId: string, club: Option<Club>)
      ensures this.clubId == clubId && !isEditing
      ensures editName == NameOf(club) && editDesc == DescriptionOf(club) && editAction == ActionOf(club)
    {
      this.clubId := clubId;
      isEditing := false;
      editName := NameOf(club);
      editDesc := DescriptionOf(club);
      editAction := ActionOf(club);
    }

    /** Opening the form reloads it from the club; closing it keeps what was typed. */
    method ToggleEdit(club: Option<Club>)
      modifies this
      ensures isEditing == !old(isEditing) && clubId == old(clubId)
      ensures !old(isEditing) ==> editName == NameOf(club) && editDesc == DescriptionOf(club) && editAction == ActionOf(club)
      ensures old(isEditing) ==> editName == old(editName) && editDesc == old(editDesc) && editAction == old(editAction)
    {
      if !isEditing {
        editName := NameOf(club);
        editDesc := DescriptionOf(club);
        editAction := ActionOf(club);
      }
      isEditing := !isEditing;
    }

    /** A render with another `clubId` prop: only the prop changes. */
    method SwitchClub(newClubId: string)
      modifies this
      ensures clubId == newClubId && isEditing == old(isEditing)
      ensures editName == old(editName) && editDesc == old(editDesc) && editAction == old(editAction)
    {
      clubId := newClubId;
    }

    method SetFields(name: string, desc: string, action: string)
      modifies this
      ensures editName == name && editDesc == desc && editAction == action
      ensures isEditing == old(isEditing) && clubId == old(clubId)
    {
      editName := name;
      editDesc := desc;
      editAction := action;
    }

    /** `handleUpdate`: saves the form as it stands, then closes it whatever the outcome. */
    method HandleUpdate(store: AppStore, ack: Ack, clubs: Reply<seq<WireClub>>)
      modifies this, store
      ensures store.Snapshot() == UpdateClub(old(store.Snapshot()), clubId, old(editName), old(editDesc), old(editAction), ack, clubs)
      ensures !isEditing && clubId == old(clubId)
      ensures editName == old(editName) && editDesc == old(editDesc) && editAction == old(editAction)
    {
      store.UpdateClub(clubId, editName, editDesc, editAction, ack, clubs);
      isEditing := false;
    }

    /**
     * `handleLeaveClub`: nothing happens unless confirmed; then the club
     * is left, and the page moves to the dashboard only if leaving did
     * not throw.
     */
    method HandleLeaveClub(confirmed: bool, store: AppStore, ack: Ack, clubs: Reply<seq<WireClub>>) returns (navigateTo: Option<string>)
      modifies store
      ensures !confirmed ==> navigateTo.None? && store.Snapshot() == old(store.Snapshot())
      ensures confirmed ==> store.Snapshot() == LeaveClub(old(store.Snapshot()), clubId, ack, clubs).0
      ensures confirmed ==> (navigateTo == Some("/dashboard") <==> LeaveClub(old(store.Snapshot()), clubId, ack, clubs).1.None?)
      ensures navigateTo.Some? ==> navigateTo.value == "/dashboard"
    {
      navigateTo := None;
      if confirmed {
        var err := store.LeaveClub(clubId, ack, clubs);
        if err.None? {
          navigateTo := Some("/dashboard");
        }
      }
    }
  }

  /** Leaving navigates away exactly when the leave call did not fail, including when there was no token to call with. */
  lemma LeaveNavigatesUnlessFailed(s: State, clubId: string, ack: Ack, clubs: Reply<seq<WireClub>>)
    ensures LeaveClub(s, clubId, ack, clubs).1.None? <==> !Authed(s) || ack.Got?
  {
  }
}
