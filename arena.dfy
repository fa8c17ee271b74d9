/** The voting page (app/pk/page.tsx): the client-side state machine around
    one match, the energy gate it consults before each vote, and the
    requests it sends. Network answers are inputs of the methods. */
module Arena {
  import opened Optional

  /** `votingState`. */
  datatype VotingState = Idle | Voting | Result

  /** `voteResult`: the photo voted for and the points it gained. */
  datatype VoteResult = VoteResult(winnerId: string, gained: int)

  /** A match as `/api/match/random` returns it; only the photo ids matter here. */
  datatype Match = Match(matchId: string, photoIds: seq<string>)

  /** A request to `/api/match/random`. */
  datatype MatchQuery = MatchQuery(exclude: seq<string>, category: string)

  /** A `POST /api/match/vote` body; `matchId` is absent when no match is shown. */
  datatype VoteCall = VoteCall(matchId: Option<string>, winnerId: string, loserId: string)

  /** The outcome of `supabase.auth.getSession()`: it threw, or it found a
      signed-in user or none. */
  datatype Session = SessionThrew | Anonymous | SignedIn

  /** The answer of the `consume_energy` RPC: an error, a data object with
      its `success` flag (false also stands for a missing flag), or neither. */
  datatype EnergyReply = EnergyError(message: string) | EnergyData(success: bool) | EnergyNoData

  /** What the energy check decides: go on to the vote request, refuse with
      a message, or throw into the handler's `catch`. */
  datatype GateOutcome = Pass | Refuse(message: string) | Throw

  /** The outcome of the vote request: it threw (network or JSON failure), or a JSON body. */
  datatype VoteReply = VoteThrew | VoteJson(success: bool, pointsGained: int)

  /** The outcome of a match request. */
  datatype FetchReply = FetchFailed | Fetched(m: Match)

  /** Energy an anonymous visitor starts with. */
  const AnonStartEnergy: int := 5

  const NoEnergyMessage: string := "\U{26A1} Not enough energy!"
  const TrialEndedMessage: string := "\U{1F381} Trial Ended! Sign up for 10 Energy."
  const ConnectionMessage: string := "Connection failed. Please retry."

  /** `parseInt(localStorage.getItem('anon_energy') ?? '5')`. The page only
      ever stores integers there, so the stored value is modelled as one. */
  function AnonEnergy(stored: Option<int>): (e: int)
    ensures stored.None? ==> e == AnonStartEnergy
    ensures stored.Some? ==> e == stored.value
  {
    if stored.Some? then stored.value else AnonStartEnergy
  }

  /** The anonymous gate: refuse at zero or less, otherwise the new stored value. */
  function AnonGate(stored: Option<int>): (r: Option<int>)
    ensures r.None? <==> AnonEnergy(stored) <= 0
    ensures r.Some? ==> r.value == AnonEnergy(stored) - 1 && r.value >= 0
  {
    var e := AnonEnergy(stored);
    if e <= 0 then None else Some(e - 1)
  }

  /** The check for a signed-in user: an RPC error or a reply without
      success refuses the vote; a reply with neither error nor data makes
      `energyData.success` throw. */
  function SignedInGate(reply: EnergyReply): (r: GateOutcome)
    ensures r.Pass? <==> reply == EnergyData(true)
    ensures r.Throw? <==> reply.EnergyNoData?
    ensures reply.EnergyError? ==> r == Refuse("Energy Error: " + reply.message)
    ensures reply == EnergyData(false) ==> r == Refuse(NoEnergyMessage)
  {
    match reply
    case EnergyError(msg) => Refuse("Energy Error: " + msg)
    case EnergyData(ok) => if ok then Pass else Refuse(NoEnergyMessage)
    case EnergyNoData => Throw
  }

  /** The whole check before the vote request, for a given session, RPC
      answer and stored anonymous counter. */
  function VoteGate(session: Session, energy: EnergyReply, stored: Option<int>): (r: GateOutcome)
    ensures session.SessionThrew? ==> r == Throw
    ensures session.SignedIn? ==> r == SignedInGate(energy)
    ensures session.Anonymous? ==>
              (r.Pass? <==> AnonGate(stored).Some?) && (r.Refuse? <==> AnonGate(stored).None?)
              && (r.Refuse? ==> r.message == TrialEndedMessage)
  {
    match session
    case SessionThrew => Throw
    case SignedIn => SignedInGate(energy)
    case Anonymous => if AnonGate(stored).None? then Refuse(TrialEndedMessage) else Pass
  }

  /** How many of `n` anonymous attempts in a row the gate lets through. */
  function AnonGrants(stored: Option<int>, n: nat): nat
    decreases n
  {
    if n == 0 then 0
    else match AnonGate(stored)
      case None => AnonGrants(stored, n - 1)
      case Some(next) => 1 + AnonGrants(Some(next), n - 1)
  }

  /** Of `n` anonymous attempts exactly `min(n, energy)` are granted; an
      unset counter allows five trial votes and no more. */
  lemma {:induction false} AnonGrantsCount(stored: Option<int>, n: nat)
    ensures var e := if AnonEnergy(stored) < 0 then 0 else AnonEnergy(stored);
            AnonGrants(stored, n) == if n < e then n else e
    decreases n
  {
    if n > 0 {
      match AnonGate(stored)
      case None =>
        AnonGrantsCount(stored, n - 1);
      case Some(next) =>
        AnonGrantsCount(Some(next), n - 1);
    }
  }

  lemma TrialAllowsFiveVotes(n: nat)
    ensures AnonGrants(None, n) == if n < 5 then n else 5
  {
    AnonGrantsCount(None, n);
  }

  /** The page's state. */
  class ArenaPage {
    var current: Option<Match>
    var loading: bool
    var votingState: VotingState
    var voteResult: Option<VoteResult>
    var error: Option<string>
    var imagesLoaded: (bool, bool)
    var selectedCategory: string
    /** The `anon_energy` entry of local storage, absent until first written. */
    var anonEnergy: Option<int>
    /** Requests sent to `/api/match/random`, `consume_energy` and `/api/match/vote`. */
    var matchQueries: seq<MatchQuery>
    var energyCharges: nat
    var voteCalls: seq<VoteCall>
    /** The queries of the pending next-match timers, oldest first. Each
        timer runs the `fetchMatch` of the render that voted, so its category
        is the one selected at that vote. All share the same delay, so they
        fire in the order they were set. */
    var pendingFetch: seq<MatchQuery>

    constructor (stored: Option<int>)
      ensures current.None? && loading && votingState == Idle && voteResult.None? && error.None?
      ensures imagesLoaded == (false, false) && selectedCategory == "All" && anonEnergy == stored
      ensures matchQueries == [] && energyCharges == 0 && voteCalls == [] && pendingFetch == []
    {
      current, loading, votingState, voteResult, error := None, true, Idle, None, None;
      imagesLoaded, selectedCategory, anonEnergy := (false, false), "All", stored;
      matchQueries, energyCharges, voteCalls, pendingFetch := [], 0, [], [];
    }

    /** Ids of the photos on screen, `match?.photos.map(p => p.id) || []`. */
    function ShownIds(): (ids: seq<string>)
      reads this
      ensures current.None? ==> ids == []
      ensures current.Some? ==> ids == current.value.photoIds
    {
      if current.Some? then current.value.photoIds else []
    }

    /** `fetchMatch(excludeIds, category)`. A successful answer always puts the
        page back to `idle` with no result; a failure only ends loading. */
    method FetchMatch(exclude: seq<string>, category: string, reply: FetchReply)
      modifies this`loading, this`imagesLoaded, this`matchQueries, this`current,
               this`votingState, this`voteResult
      ensures matchQueries == old(matchQueries) + [MatchQuery(exclude, category)]
      ensures !loading && imagesLoaded == (false, false)
      ensures reply.Fetched? ==> current == Some(reply.m) && votingState == Idle && voteResult.None?
      ensures reply.FetchFailed? ==>
                current == old(current) && votingState == old(votingState) && voteResult == old(voteResult)
    {
      loading := true;
      imagesLoaded := (false, false);
      matchQueries := matchQueries + [MatchQuery(exclude, category)];
      if reply.Fetched? {
        current := Some(reply.m);
        loading := false;
        votingState := Idle;
        voteResult := None;
      } else {
        loading := false;
      }
    }

    /** A click on a category button: the selected one does nothing, any other
        becomes selected and is fetched with an empty exclude list. */
    method SelectCategory(cat: string, reply: FetchReply)
      modifies this`selectedCategory, this`loading, this`imagesLoaded, this`matchQueries,
               this`current, this`votingState, this`voteResult
      ensures old(selectedCategory) == cat ==>
                matchQueries == old(matchQueries) && current == old(current)
                && votingState == old(votingState) && voteResult == old(voteResult)
                && loading == old(loading) && imagesLoaded == old(imagesLoaded)
      ensures old(selectedCategory) != cat ==>
                matchQueries == old(matchQueries) + [MatchQuery([], cat)]
                && !loading && imagesLoaded == (false, false)
                && (reply.Fetched? ==> current == Some(reply.m) && votingState == Idle && voteResult.None?)
                && (reply.FetchFailed? ==>
                      current == old(current) && votingState == old(votingState) && voteResult == old(voteResult))
      ensures selectedCategory == cat
      ensures error == old(error) && anonEnergy == old(anonEnergy) && voteCalls == old(voteCalls)
      ensures energyCharges == old(energyCharges) && pendingFetch == old(pendingFetch)
    {
      if selectedCategory != cat {
        selectedCategory := cat;
        FetchMatch([], cat, reply);
      }
    }

    /** `handleVote(winnerId, loserId)` with the session, the
        `consume_energy` answer and the vote request's outcome as inputs. */
    method HandleVote(winnerId: string, loserId: string, session: Session,
                      energy: EnergyReply, reply: VoteReply)
      modifies this`votingState, this`voteResult, this`error, this`anonEnergy,
               this`energyCharges, this`voteCalls, this`pendingFetch
      // Only an idle page votes.
      ensures old(votingState) != Idle ==>
                votingState == old(votingState) && voteResult == old(voteResult) && error == old(error)
                && anonEnergy == old(anonEnergy) && energyCharges == old(energyCharges)
                && voteCalls == old(voteCalls) && pendingFetch == old(pendingFetch)
      // A signed-in user is charged through the RPC; the local counter is left alone.
      ensures old(votingState) == Idle && session.SignedIn? ==>
                energyCharges == old(energyCharges) + 1 && anonEnergy == old(anonEnergy)
      // An anonymous visitor uses the local counter: at most one unit per vote.
      ensures old(votingState) == Idle && session.Anonymous? ==>
                energyCharges == old(energyCharges)
                && anonEnergy == (if AnonGate(old(anonEnergy)).Some? then AnonGate(old(anonEnergy)) else old(anonEnergy))
      // A session lookup that throws charges nothing.
      ensures old(votingState) == Idle && session.SessionThrew? ==>
                energyCharges == old(energyCharges) && anonEnergy == old(anonEnergy)
      // A refused gate: back to idle, no result, its message, nothing sent.
      ensures old(votingState) == Idle && VoteGate(session, energy, old(anonEnergy)).Refuse? ==>
                votingState == Idle && voteResult.None? && voteCalls == old(voteCalls)
                && pendingFetch == old(pendingFetch)
                && error == Some(VoteGate(session, energy, old(anonEnergy)).message)
      // A throw before the request: back to idle with the connection error, nothing sent.
      ensures old(votingState) == Idle && VoteGate(session, energy, old(anonEnergy)).Throw? ==>
                votingState == Idle && voteResult.None? && voteCalls == old(voteCalls)
                && pendingFetch == old(pendingFetch) && error == Some(ConnectionMessage)
      // A granted gate sends exactly one vote request for the shown match.
      ensures old(votingState) == Idle && VoteGate(session, energy, old(anonEnergy)).Pass? ==>
                && voteCalls == old(voteCalls) + [VoteCall(if old(current).Some? then Some(old(current).value.matchId) else None, winnerId, loserId)]
                && (reply.VoteThrew? ==>
                      votingState == Idle && voteResult.None? && error == Some(ConnectionMessage)
                      && pendingFetch == old(pendingFetch))
                && (reply.VoteJson? && reply.success ==>
                      votingState == Result && voteResult == Some(VoteResult(winnerId, reply.pointsGained))
                      && pendingFetch == old(pendingFetch) + [MatchQuery(old(ShownIds()), old(selectedCategory))]
                      && error == old(error))
                // A JSON answer without success (an HTTP error) leaves the page in `result`.
                && (reply.VoteJson? && !reply.success ==>
                      votingState == Result && voteResult == Some(VoteResult(winnerId, 0))
                      && pendingFetch == old(pendingFetch) && error == old(error))
    {
      if votingState != Idle {
        return;
      }
      voteResult := Some(VoteResult(winnerId, 0));
      votingState := Voting;

      var gate := VoteGate(session, energy, anonEnergy);
      if session.SignedIn? {
        energyCharges := energyCharges + 1;
      } else if session.Anonymous? && gate.Pass? {
        anonEnergy := AnonGate(anonEnergy);
      }
      match gate {
        case Refuse(msg) =>
          error := Some(msg);
          votingState := Idle;
          voteResult := None;
          return;
        case Throw =>
          error := Some(ConnectionMessage);
          votingState := Idle;
          voteResult := None;
          return;
        case Pass =>
      }

      votingState := Result;
      var matchId := if current.Some? then Some(current.value.matchId) else None;
      voteCalls := voteCalls + [VoteCall(matchId, winnerId, loserId)];

      match reply {
        case VoteThrew =>
          error := Some(ConnectionMessage);
          votingState := Idle;
          voteResult := None;
        case VoteJson(success, points) =>
          if success {
            voteResult := Some(VoteResult(winnerId, points));
            pendingFetch := pendingFetch + [MatchQuery(ShownIds(), selectedCategory)];
          }
      }
    }

    /** The oldest next-match timer: fetch a new match that excludes the photos just
        voted on, in the category selected when the vote was cast. */
    method NextMatchTimerFired(reply: FetchReply)
      requires pendingFetch != []
      modifies this`pendingFetch, this`loading, this`imagesLoaded, this`matchQueries,
               this`current, this`votingState, this`voteResult
      ensures pendingFetch == old(pendingFetch)[1..]
      ensures matchQueries == old(matchQueries) + [old(pendingFetch)[0]]
      ensures !loading && imagesLoaded == (false, false)
      ensures reply.Fetched? ==> current == Some(reply.m) && votingState == Idle && voteResult.None?
      // A failed fetch keeps the match and state: after a vote the page stays in `result`.
      ensures reply.FetchFailed? ==>
                current == old(current) && votingState == old(votingState) && voteResult == old(voteResult)
    {
      var query := pendingFetch[0];
      pendingFetch := pendingFetch[1..];
      FetchMatch(query.exclude, query.category, reply);
    }

    /** The error toast's timer. */
    method ErrorTimerFired()
      modifies this`error
      ensures error.None?
    {
      error := None;
    }
  }

  /** A first anonymous vote whose request throws: the page is idle again
      with the connection error, one request was sent and the spent energy
      point is not given back. */
  method VoteScenario() returns (page: ArenaPage)
    ensures page.votingState == Idle && page.anonEnergy == Some(4)
    ensures page.error == Some(ConnectionMessage) && |page.voteCalls| == 1
  {
    page := new ArenaPage(None);
    page.FetchMatch([], "All", Fetched(Match("m1", ["a", "b"])));
    page.HandleVote("a", "b", Anonymous, EnergyData(true), VoteThrew);
  }

  /** A vote cast in "All", then a switch to "Pets" before the next-match
      timer fires: the timer still asks for "All", excluding the photos
      voted on, while "Pets" stays selected. */
  method StaleCategoryScenario() returns (page: ArenaPage)
    ensures page.selectedCategory == "Pets"
    ensures page.matchQueries == [MatchQuery([], "All"), MatchQuery([], "Pets"), MatchQuery(["a", "b"], "All")]
  {
    page := new ArenaPage(None);
    page.FetchMatch([], "All", Fetched(Match("m1", ["a", "b"])));
    page.HandleVote("a", "b", Anonymous, EnergyData(true), VoteJson(true, 16));
    page.SelectCategory("Pets", Fetched(Match("m2", ["c", "d"])));
    page.NextMatchTimerFired(Fetched(Match("m3", ["e", "f"])));
  }

  /** A signed-in vote whose energy RPC answers with neither data nor an
      error: the RPC was called once, no vote request was sent, and the page
      is idle with the connection error. */
  method EnergyThrowScenario() returns (page: ArenaPage)
    ensures page.votingState == Idle && page.voteResult.None?
    ensures page.error == Some(ConnectionMessage)
    ensures page.energyCharges == 1 && page.voteCalls == []
  {
    page := new ArenaPage(None);
    page.FetchMatch([], "All", Fetched(Match("m1", ["a", "b"])));
    page.HandleVote("a", "b", SignedIn, EnergyNoData, VoteJson(true, 16));
  }

  /** A successful vote whose next-match fetch fails: the page keeps the old
      match and stays in `result`, so it takes no further vote. */
  method FailedNextMatchScenario() returns (page: ArenaPage)
    ensures page.votingState == Result && page.voteResult == Some(VoteResult("a", 16))
    ensures page.current == Some(Match("m1", ["a", "b"])) && page.pendingFetch == []
  {
    page := new ArenaPage(None);
    page.FetchMatch([], "All", Fetched(Match("m1", ["a", "b"])));
    page.HandleVote("a", "b", Anonymous, EnergyData(true), VoteJson(true, 16));
    page.NextMatchTimerFired(FetchFailed);
  }

  /** Two votes before the first timer fires: a vote in "All", a switch to
      "Pets" that brings the page back to idle, and a second vote. Both
      timers stay pending and fire in turn, each with its own vote's
      photos and category. */
  method TwoTimersScenario() returns (page: ArenaPage)
    ensures page.pendingFetch == []
    ensures page.matchQueries ==
            [MatchQuery([], "All"), MatchQuery([], "Pets"),
             MatchQuery(["a", "b"], "All"), MatchQuery(["c", "d"], "Pets")]
  {
    page := new ArenaPage(None);
    page.FetchMatch([], "All", Fetched(Match("m1", ["a", "b"])));
    page.HandleVote("a", "b", Anonymous, EnergyData(true), VoteJson(true, 16));
    page.SelectCategory("Pets", Fetched(Match("m2", ["c", "d"])));
    page.HandleVote("c", "d", Anonymous, EnergyData(true), VoteJson(true, 16));
    page.NextMatchTimerFired(Fetched(Match("m3", ["e", "f"])));
    page.NextMatchTimerFired(Fetched(Match("m4", ["g", "h"])));
  }
}
