// How many calls are in a given situation, and how one step changes that.
module Counting {
  import opened Basics
  import opened Registry
  import opened Protocol

  datatype Role =
    | Opener                      // between openings.Add and openings.Done
    | User(entry: EntryId)        // between wg.Add and wg.Done of an entry
    | TokenHolder(entry: EntryId) // past the throttle of an entry, token not yet back
    | InFlight(name: Name)        // between the granted acquire and the complete callback

  function Used(pc: Pc): Option<EntryId> {
    match pc
    case Check(e) => Some(e)
    case Select(e) => Some(e)
    case Refused(e) => Some(e)
    case Granted(e) => Some(e)
    case InFn(e) => Some(e)
    case Returned(e, _) => Some(e)
    case TokenBack(e, _) => Some(e)
    case Release(e, _) => Some(e)
    case _ => None
  }

  function Tokened(pc: Pc): Option<EntryId> {
    match pc
    case Granted(e) => Some(e)
    case InFn(e) => Some(e)
    case Returned(e, _) => Some(e)
    case TokenBack(e, _) => Some(e)
    case _ => None
  }

  function FlightOf(th: Thread): Option<Name> {
    if (th.pc.InFn? || th.pc.Returned?) && IsRun(th.op) then Some(th.op.name) else None
  }

  predicate Plays(th: Thread, role: Role) {
    match role
    case Opener => th.pc.Opening? || th.pc.Opened? || th.pc.Discard? || th.pc.Finish?
                   || ((th.pc.Handover? || th.pc.Notify?) && th.pc.next.ToFinish?)
    case User(e) => Used(th.pc) == Some(e)
    case TokenHolder(e) => Tokened(th.pc) == Some(e)
    case InFlight(n) => FlightOf(th) == Some(n)
  }

  ghost function Players(ths: map<CallId, Thread>, role: Role): set<CallId> {
    set t | t in ths && Plays(ths[t], role)
  }

  ghost function Count(ths: map<CallId, Thread>, role: Role): nat { |Players(ths, role)| }

  function One(b: bool): nat { if b then 1 else 0 }

  // A call that has not begun plays no role.
  const IDLE := Thread(List, Begin, Direct, false, 0, None)

  function ThreadOf(s: State, t: CallId): Thread {
    if t in s.threads then s.threads[t] else IDLE
  }

  lemma CountPut(s: State, t: CallId, th: Thread, role: Role)
    ensures Count(s.threads[t := th], role) ==
      Count(s.threads, role) - One(Plays(ThreadOf(s, t), role)) + One(Plays(th, role))
  {
    var was, now := Players(s.threads, role), Players(s.threads[t := th], role);
    forall u ensures u in now <==> if u == t then Plays(th, role) else u in was {
    }
    SizeOfSwap(was, now, t);
  }

  lemma SizeOfSwap(was: set<CallId>, now: set<CallId>, t: CallId)
    requires forall u :: u != t ==> (u in now <==> u in was)
    ensures |now| == |was| - One(t in was) + One(t in now)
  {
    assert now - {t} == was - {t};
    assert |now| == |now - {t}| + One(t in now);
    assert |was| == |was - {t}| + One(t in was);
  }

  lemma CountZero(ths: map<CallId, Thread>, role: Role)
    ensures Count(ths, role) == 0 <==> forall t :: t in ths ==> !Plays(ths[t], role)
  {
    var ps := Players(ths, role);
    if |ps| == 0 {
      assert ps == {};
      forall t | t in ths ensures !Plays(ths[t], role) {
        assert t !in ps;
      }
    } else {
      var t :| t in ps;
    }
  }

  // A positive count has a witness.
  lemma Someone(ths: map<CallId, Thread>, role: Role) returns (t: CallId)
    requires Count(ths, role) > 0
    ensures t in ths && Plays(ths[t], role)
  {
    t :| t in Players(ths, role);
  }
}
