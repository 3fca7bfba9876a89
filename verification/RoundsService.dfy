/** Rounds and numbered remarks as the services write them (rounds/rounds.service.ts, remarks/remarks.service.ts). */
module RoundsService {
  import opened Prelude
  import R = Remarks
  import P = Rounds

  /** How many remarks of a round are pending. */
  function PendingIn(entries: seq<P.Entry>, round: P.RoundId): nat {
    if entries == [] then 0
    else
      var last := entries[|entries| - 1];
      PendingIn(entries[..|entries| - 1], round) + if last.round == round && P.Pending(last) then 1 else 0
  }

  lemma {:induction false} PendingMeaning(entries: seq<P.Entry>, round: P.RoundId)
    ensures PendingIn(entries, round) == 0 <==> P.NothingPendingIn(entries, round)
  {
    if entries != [] {
      var n := |entries| - 1;
      PendingMeaning(entries[..n], round);
      if P.NothingPendingIn(entries, round) {
        assert forall k :: 0 <= k < n ==> entries[..n][k] == entries[k];
      } else {
        var k :| 0 <= k < |entries| && entries[k].round == round && P.Pending(entries[k]);
        assert k < n ==> entries[..n][k] == entries[k];
      }
    }
  }

  lemma PendingMore(entries: seq<P.Entry>, k: nat, round: P.RoundId)
    requires k < |entries|
    ensures PendingIn(entries[..k + 1], round)
         == PendingIn(entries[..k], round) + if entries[k].round == round && P.Pending(entries[k]) then 1 else 0
  {
    assert entries[..k + 1][..k] == entries[..k];
  }

  lemma HighestMore(entries: seq<P.Entry>, k: nat, round: P.RoundId)
    requires k < |entries|
    ensures P.Highest(P.NumbersIn(entries[..k + 1], round))
         == if entries[k].round == round then Max(entries[k].number, P.Highest(P.NumbersIn(entries[..k], round)))
            else P.Highest(P.NumbersIn(entries[..k], round))
  {
    assert entries[..k + 1][..k] == entries[..k];
    var numbers := P.NumbersIn(entries[..k], round);
    if entries[k].round == round {
      assert (numbers + [entries[k].number])[..|numbers|] == numbers;
    } else {
      assert numbers + [] == numbers;
    }
  }

  class Store {
    var rounds: seq<P.Round>
    var entries: seq<P.Entry>
    var events: seq<P.Event>

    function View(): P.Project
      reads this
    {
      P.Project(rounds, entries, events)
    }

    constructor ()
      ensures View() == P.EMPTY
    {
      rounds, entries, events := [], [], [];
    }

    /** The outcome of a method that carries out a command: exactly what the specification answers. */
    ghost predicate Carried(before: P.Project, c: P.Command, error: Option<R.Error>)
      reads this
    {
      && View() == P.Next(before, c)
      && match P.Do(before, c)
         case Ok(_) => error.None?
         case Err(e) => error == Some(e)
    }

    /** Round by round how many remarks are pending; rounds where all is decided are not in the map. */
    method PendingByRound() returns (pending: map<P.RoundId, nat>)
      ensures forall round :: round in pending <==> PendingIn(entries, round) > 0
      ensures forall round :: round in pending ==> pending[round] == PendingIn(entries, round)
      ensures pending == map[] <==> P.NothingPending(entries)
    {
      pending := map[];
      for k := 0 to |entries|
        invariant forall round :: round in pending <==> PendingIn(entries[..k], round) > 0
        invariant forall round :: round in pending ==> pending[round] == PendingIn(entries[..k], round)
      {
        var e := entries[k];
        forall round: P.RoundId
          ensures PendingIn(entries[..k + 1], round)
               == PendingIn(entries[..k], round) + if e.round == round && P.Pending(e) then 1 else 0
        {
          PendingMore(entries, k, round);
        }
        if P.Pending(e) {
          pending := pending[e.round := (if e.round in pending then pending[e.round] else 0) + 1];
        }
      }
      assert entries[..|entries|] == entries;
      EmptyMeaning(pending);
    }

    lemma EmptyMeaning(pending: map<P.RoundId, nat>)
      requires forall round :: round in pending <==> PendingIn(entries, round) > 0
      ensures pending == map[] <==> P.NothingPending(entries)
    {
      forall round: P.RoundId
        ensures round in pending <==> !P.NothingPendingIn(entries, round)
      {
        PendingMeaning(entries, round);
      }
      if P.NothingPending(entries) {
        assert forall round: P.RoundId :: P.NothingPendingIn(entries, round);
        assert pending.Keys == {};
      } else {
        var k :| 0 <= k < |entries| && P.Pending(entries[k]);
        assert entries[k].round in pending;
      }
    }

    method LastRoundNumber() returns (last: nat)
      ensures last == P.Highest(P.RoundNumbers(rounds))
    {
      last := 0;
      ghost var numbers := P.RoundNumbers(rounds);
      for k := 0 to |rounds|
        invariant last == P.Highest(numbers[..k])
      {
        assert numbers[..k + 1][..k] == numbers[..k];
        if rounds[k].number > last {
          last := rounds[k].number;
        }
      }
      assert numbers[..|rounds|] == numbers;
    }

    method NumberTaken(number: nat) returns (taken: bool)
      ensures taken == (number in P.RoundNumbers(rounds))
    {
      taken := false;
      ghost var numbers := P.RoundNumbers(rounds);
      for k := 0 to |rounds|
        invariant taken <==> number in numbers[..k]
      {
        assert numbers[..k + 1] == numbers[..k] + [numbers[k]];
        if rounds[k].number == number {
          taken := true;
        }
      }
      assert numbers[..|rounds|] == numbers;
    }

    method Create(role: R.Role, number: Option<nat>) returns (error: Option<R.Error>)
      modifies this
      ensures Carried(old(View()), P.DoCreateRound(role, number), error)
    {
      var pending := PendingByRound();
      if pending != map[] {
        return Some(R.Conflict);
      }
      var last := LastRoundNumber();
      var n := if number.Some? then number.value else last + 1;
      var taken := NumberTaken(n);
      if taken {
        return Some(R.Conflict);
      }
      events := events + [P.Event(|rounds|, P.Opened, role)];
      rounds := rounds + [P.Round(n, false)];
      return None;
    }

    method Close(role: R.Role, round: P.RoundId) returns (error: Option<R.Error>)
      modifies this
      ensures Carried(old(View()), P.DoCloseRound(role, round), error)
    {
      if !role.Business? && !role.Pm? {
        return Some(R.Forbidden);
      }
      if round >= |rounds| {
        return Some(R.NotFound);
      }
      if rounds[round].closed {
        return None;
      }
      var pending := PendingByRound();
      PendingMeaning(entries, round);
      if round in pending {
        return Some(R.Conflict);
      }
      rounds := rounds[round := rounds[round].(closed := true)];
      events := events + [P.Event(round, P.ClosedAgain, role)];
      return None;
    }

    method Reopen(role: R.Role, round: P.RoundId) returns (error: Option<R.Error>)
      modifies this
      ensures Carried(old(View()), P.DoReopenRound(role, round), error)
    {
      if !role.Business? && !role.Pm? {
        return Some(R.Forbidden);
      }
      if round >= |rounds| {
        return Some(R.NotFound);
      }
      if rounds[round].closed {
        rounds := rounds[round := rounds[round].(closed := false)];
        events := events + [P.Event(round, P.ReopenedAgain, role)];
      }
      return None;
    }

    method LastNumberIn(round: P.RoundId) returns (last: nat)
      ensures last == P.Highest(P.NumbersIn(entries, round))
    {
      last := 0;
      for k := 0 to |entries|
        invariant last == P.Highest(P.NumbersIn(entries[..k], round))
      {
        HighestMore(entries, k, round);
        if entries[k].round == round && entries[k].number > last {
          last := entries[k].number;
        }
      }
      assert entries[..|entries|] == entries;
    }

    /** The highest number in the round plus one, found under the lock of the round. */
    method CreateNumbered(round: P.RoundId, remark: R.Remark) returns (number: nat)
      modifies this`entries
      ensures View() == P.WithEntry(old(View()), round, remark)
      ensures number == entries[|entries| - 1].number
    {
      var last := LastNumberIn(round);
      number := last + 1;
      entries := entries + [P.Entry(round, number, remark)];
    }

    method CreateRemark(role: R.Role, round: P.RoundId, screenshot: bool) returns (error: Option<R.Error>)
      modifies this
      ensures Carried(old(View()), P.DoCreateRemark(role, round, screenshot), error)
    {
      if !role.Business? && !role.Pm? {
        return Some(R.Forbidden);
      }
      if round >= |rounds| {
        return Some(R.NotFound);
      }
      if rounds[round].closed {
        return Some(R.Conflict);
      }
      var number := CreateNumbered(round, R.NewRemark(R.Imported, R.Created, role, P.ShotsOf(screenshot)));
      return None;
    }

    method ImportRemark(role: R.Role, round: P.RoundId, parsed: bool, screenshot: bool) returns (error: Option<R.Error>)
      modifies this
      ensures Carried(old(View()), P.DoImportRemark(role, round, parsed, screenshot), error)
    {
      if !role.Business? && !role.Pm? {
        return Some(R.Forbidden);
      }
      if round >= |rounds| {
        return Some(R.NotFound);
      }
      if rounds[round].closed {
        return Some(R.Conflict);
      }
      var status := if parsed then R.Imported else R.NeedsHumanParse;
      var number := CreateNumbered(round, R.NewRemark(status, R.ImportedRow, role, P.ShotsOf(screenshot)));
      return None;
    }

    method ReopenRemark(role: R.Role, k: nat, round: P.RoundId, screenshot: bool) returns (error: Option<R.Error>)
      modifies this
      ensures Carried(old(View()), P.DoReopenRemark(role, k, round, screenshot), error)
    {
      if !role.Business? {
        return Some(R.Forbidden);
      }
      if k >= |entries| {
        return Some(R.NotFound);
      }
      if !entries[k].remark.status.Closed? {
        return Some(R.Conflict);
      }
      if round >= |rounds| {
        return Some(R.NotFound);
      }
      if rounds[round].closed {
        return Some(R.Conflict);
      }
      var number := CreateNumbered(round, R.NewRemark(R.Reopened, R.ReopenedHere, role, P.ShotsOf(screenshot)));
      var r := entries[k].remark;
      var noted := r.(history := r.history + [R.Row(Some(r.status), r.status, R.ReopenedAs, Some(role), None)]);
      entries := entries[k := entries[k].(remark := noted)];
      return None;
    }
  }
}
