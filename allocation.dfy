/** The point-allocation form: the draft (team, player, activity, points),
    the team's roster, the status message, and the ordered validation that
    guards `POST /points`. */
module Allocation {
  import opened Wrappers

  /** An entry of the player drop-down, from `GET /players/team/{teamId}`. */
  datatype PlayerOption = PlayerOption(id: string, name: string)

  /** The body of `POST /points`. */
  datatype PointsPayload = PointsPayload(playerId: string, activityId: string, points: int)

  const CompleteAllFields := "Complete all fields!"
  const PointsCannotBeZero := "Points cannot be zero."
  const Saving := "Saving..."
  const SaveSucceeded := "Success! Reflected on dashboard!"
  const SaveFailed := "Error saving data, try again."

  /** A draft may be sent: every id chosen and a non-zero point value. */
  predicate Submittable(teamId: string, playerId: string, activityId: string, points: int) {
    teamId != "" && playerId != "" && activityId != "" && points != 0
  }

  /** The submit handler's checks, in order: the message it stops with, or
      `None` when it goes on to save. The draft is let through exactly when it
      is submittable; a missing id is reported before a zero point value, so
      "Points cannot be zero." is shown only for an otherwise complete draft. */
  function Rejection(teamId: string, playerId: string, activityId: string, points: int): (r: Option<string>)
    ensures r.None? <==> Submittable(teamId, playerId, activityId, points)
    ensures teamId == "" || playerId == "" || activityId == "" ==> r == Some(CompleteAllFields)
    ensures r == Some(PointsCannotBeZero) <==> teamId != "" && playerId != "" && activityId != "" && points == 0
  {
    if teamId == "" || playerId == "" || activityId == "" then Some(CompleteAllFields)
    else if points == 0 then Some(PointsCannotBeZero)
    else None
  }

  class LogicCrud {
    var teamId: string
    var playerId: string
    var activityId: string
    var points: int
    var players: seq<PlayerOption>
    var msg: string

    /** The form as mounted: nothing chosen, 0 points, no roster, no message. */
    constructor ()
      ensures teamId == "" && playerId == "" && activityId == ""
      ensures points == 0 && players == [] && msg == ""
    {
      teamId, playerId, activityId := "", "", "";
      points := 0;
      players := [];
      msg := "";
    }

    /** The player drop-down is enabled only once a roster has arrived. */
    predicate PlayerSelectEnabled()
      reads this
    {
      players != []
    }

    /** Choose a team: the player choice and the roster are cleared, the
        activity and the points stay. A roster fetch for the new team is
        returned when its id is non-empty; the "Select" entry fetches nothing. */
    method ChangeTeam(selected: string) returns (rosterFetch: Option<string>)
      modifies this
      ensures teamId == selected && playerId == "" && players == []
      ensures activityId == old(activityId) && points == old(points) && msg == old(msg)
      ensures rosterFetch == (if selected != "" then Some(selected) else None)
      ensures !PlayerSelectEnabled()
    {
      teamId := selected;
      playerId := "";
      players := [];
      if selected != "" {
        rosterFetch := Some(selected);
      } else {
        rosterFetch := None;
      }
    }

    /** A roster response arrives and replaces the options, whichever team it
        was requested for. */
    method OnRoster(roster: seq<PlayerOption>)
      modifies this`players
      ensures players == roster
    {
      players := roster;
    }

    /** Choose a player from the enabled drop-down: its "Select" entry or one
        of the roster's ids. */
    method ChoosePlayer(id: string)
      requires PlayerSelectEnabled()
      requires id == "" || exists o :: o in players && o.id == id
      modifies this`playerId
      ensures playerId == id
    {
      playerId := id;
    }

    /** Choose an activity. */
    method ChooseActivity(id: string)
      modifies this`activityId
      ensures activityId == id
    {
      activityId := id;
    }

    /** The `-` control: one point less, with no lower bound. */
    method Decrement()
      modifies this`points
      ensures points == old(points) - 1
    {
      points := points - 1;
    }

    /** The `+` control: one point more. */
    method Increment()
      modifies this`points
      ensures points == old(points) + 1
    {
      points := points + 1;
    }

    /** The points input: any integer, negative included. */
    method SetPoints(value: int)
      modifies this`points
      ensures points == value
    {
      points := value;
    }

    /** Submit. A draft that fails validation gets the first failing check's
        message and nothing is sent. A submittable draft gets "Saving..." and
        exactly one `POST /points` carrying its player, activity and points,
        which are therefore never zero. Only the message changes. */
    method Submit() returns (post: Option<PointsPayload>)
      modifies this`msg
      ensures post.Some? <==> Submittable(teamId, playerId, activityId, points)
      ensures post.None? ==> Some(msg) == Rejection(teamId, playerId, activityId, points)
      ensures post.Some? ==>
        && post.value == PointsPayload(playerId, activityId, points)
        && post.value.points != 0
        && msg == Saving
    {
      var rejected := Rejection(teamId, playerId, activityId, points);
      if rejected.Some? {
        msg := rejected.value;
        return None;
      }
      msg := Saving;
      post := Some(PointsPayload(playerId, activityId, points));
    }

    /** The outcome of the `POST /points` request. */
    method OnSaveOutcome(success: bool)
      modifies this`msg
      ensures msg == (if success then SaveSucceeded else SaveFailed)
    {
      msg := if success then SaveSucceeded else SaveFailed;
    }
  }

  /** Choosing a team, a player and an activity and pressing `-` once sends a
      negative allocation; a repeated submit after success sends the same
      payload again as a second, separate request. */
  method NegativeAllocationTwice() returns (first: Option<PointsPayload>, second: Option<PointsPayload>, msg: string)
    ensures first == Some(PointsPayload("p1", "quiz", -1))
    ensures second == first
    ensures msg == Saving
  {
    var form := new LogicCrud();
    var fetch := form.ChangeTeam("t1");
    form.OnRoster([PlayerOption("p1", "Player One")]);
    form.ChoosePlayer("p1");
    form.ChooseActivity("quiz");
    form.Decrement();
    first := form.Submit();
    form.OnSaveOutcome(true);
    second := form.Submit();
    msg := form.msg;
  }

  /** There is no guard against a second submit while the first is in
      flight: pressing submit twice before any outcome arrives sends the same
      payload twice, and the form still shows "Saving...". */
  method SubmitWhileSaving() returns (first: Option<PointsPayload>, second: Option<PointsPayload>, msg: string)
    ensures first == Some(PointsPayload("p1", "quiz", 5))
    ensures second == first
    ensures msg == Saving
  {
    var form := new LogicCrud();
    var fetch := form.ChangeTeam("t1");
    form.OnRoster([PlayerOption("p1", "Player One")]);
    form.ChoosePlayer("p1");
    form.ChooseActivity("quiz");
    form.SetPoints(5);
    first := form.Submit();
    second := form.Submit();
    msg := form.msg;
  }

  /** There is no guard against late roster responses: after switching from
      team "A" to team "B", a late response to A's fetch fills the player
      options with A's roster while "B" stays selected, and a player chosen
      from it is then sent as an allocation although "B" is the team shown. */
  method LateRosterIsKept() returns (teamId: string, players: seq<PlayerOption>, post: Option<PointsPayload>)
    ensures teamId == "B"
    ensures players == [PlayerOption("a1", "From A")]
    ensures post == Some(PointsPayload("a1", "quiz", 1))
  {
    var form := new LogicCrud();
    var fetchA := form.ChangeTeam("A");
    var fetchB := form.ChangeTeam("B");
    form.OnRoster([PlayerOption("a1", "From A")]);
    form.ChoosePlayer("a1");
    form.ChooseActivity("quiz");
    form.Increment();
    post := form.Submit();
    teamId, players := form.teamId, form.players;
  }
}
