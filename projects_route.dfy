/** The project store of app/api/projects/route.ts: a JSON file holding a
    list of project records. GET drops the records older than 24 hours and
    rewrites the file only when it dropped any; POST stamps the new record
    with server values and puts it first. The clock is the parameter `now`
    (milliseconds), `toISOString` is the parameter `iso`, and the string
    parsing of `new Date(text)` is the parameter `parseDate`. The file-system
    faults are parameters too. */
module ProjectsRoute {
  import opened Wrappers
  import opened Text
  import opened Json

  /** The store file: absent, holding a list of records, or holding text
      that JSON.parse rejects or that is not a list of records. */
  datatype Store = Missing | Stored(projects: seq<Record>) | Corrupt

  /** 24 * 60 * 60 * 1000. */
  const DayMs: int := 86400000

  /** The largest magnitude of a valid Date time value. */
  const MaxTime: int := 8640000000000000

  const FetchFailedMessage: string := "Failed to fetch projects"
  const CreateFailedMessage: string := "Failed to create project"

  /** `new Date(v).getTime()` for the value of `createdAt`: None stands for
      NaN (a missing value, an object, an unparseable text, or a number
      outside the valid range). An array is also mapped to None, which is a
      simplification: the source converts it to text first, so `[2024]`
      gives a valid date. */
  function CreatedTime(p: Record, parseDate: string -> Option<int>): Option<int> {
    if "createdAt" !in p then None
    else match p["createdAt"]
      case JNull => Some(0)
      case JBool(b) => Some(if b then 1 else 0)
      case JNum(n) => if -MaxTime <= n <= MaxTime then Some(n) else None
      case JStr(s) => parseDate(s)
      case JArr(_) => None
      case JObj(_) => None
  }

  /** The filter predicate: `now - createdAt < 24h`; NaN compares false. */
  predicate Fresh(p: Record, now: int, parseDate: string -> Option<int>) {
    var t := CreatedTime(p, parseDate);
    t.Some? && now - t.value < DayMs
  }

  /** `projects.filter(...)`: exactly the fresh records, in their order. */
  function KeepFresh(ps: seq<Record>, now: int, parseDate: string -> Option<int>): (r: seq<Record>)
    ensures |r| <= |ps|
    ensures forall p :: p in r <==> p in ps && Fresh(p, now, parseDate)
  {
    if ps == [] then []
    else if Fresh(ps[0], now, parseDate) then [ps[0]] + KeepFresh(ps[1..], now, parseDate)
    else KeepFresh(ps[1..], now, parseDate)
  }

  /** The filter keeps the relative order: it distributes over concatenation. */
  lemma {:induction false} KeepFreshAppend(a: seq<Record>, b: seq<Record>, now: int, parseDate: string -> Option<int>)
    ensures KeepFresh(a + b, now, parseDate) == KeepFresh(a, now, parseDate) + KeepFresh(b, now, parseDate)
  {
    if a == [] {
      assert a + b == b;
    } else {
      assert (a + b)[1..] == a[1..] + b;
      KeepFreshAppend(a[1..], b, now, parseDate);
    }
  }

  /** The length is unchanged exactly when nothing was dropped, that is when
      every record is fresh; then the list is returned as it was. */
  lemma {:induction false} KeepFreshSameLength(ps: seq<Record>, now: int, parseDate: string -> Option<int>)
    ensures |KeepFresh(ps, now, parseDate)| == |ps| <==> forall p :: p in ps ==> Fresh(p, now, parseDate)
    ensures (forall p :: p in ps ==> Fresh(p, now, parseDate)) ==> KeepFresh(ps, now, parseDate) == ps
  {
    if ps != [] {
      assert forall p :: p in ps[1..] ==> p in ps;
      assert forall p :: p in ps ==> p == ps[0] || p in ps[1..];
      KeepFreshSameLength(ps[1..], now, parseDate);
      if !Fresh(ps[0], now, parseDate) {
        assert ps[0] in ps;
      }
    }
  }

  /** A later GET drops everything an earlier one dropped: filtering at one
      time and then at a later one is the same as filtering at the later one. */
  lemma {:induction false} KeepFreshLater(ps: seq<Record>, now1: int, now2: int, parseDate: string -> Option<int>)
    requires now1 <= now2
    ensures KeepFresh(KeepFresh(ps, now1, parseDate), now2, parseDate) == KeepFresh(ps, now2, parseDate)
  {
    if ps != [] {
      KeepFreshLater(ps[1..], now1, now2, parseDate);
      if Fresh(ps[0], now1, parseDate) {
        assert ([ps[0]] + KeepFresh(ps[1..], now1, parseDate))[1..] == KeepFresh(ps[1..], now1, parseDate);
      }
    }
  }

  /** The record POST stores: the payload's fields, with `id`, `createdAt`
      and `expiresAt` set by the server. */
  function Stamp(payload: Record, now: nat, iso: int -> string): (r: Record)
    ensures r.Keys == payload.Keys + {"id", "createdAt", "expiresAt"}
    ensures r["id"] == JStr(NatText(now))
    ensures r["createdAt"] == JStr(iso(now)) && r["expiresAt"] == JStr(iso(now + DayMs))
    ensures forall k :: k in payload && k !in {"id", "createdAt", "expiresAt"} ==> r[k] == payload[k]
  {
    payload["id" := JStr(NatText(now))]["createdAt" := JStr(iso(now))]["expiresAt" := JStr(iso(now + DayMs))]
  }

  /** When the date text written by `toISOString` parses back to its
      instant, a stamped record survives every GET less than 24 hours later
      and is dropped by every GET at or after 24 hours. */
  lemma StampedLifetime(payload: Record, now: nat, later: int, iso: int -> string, parseDate: string -> Option<int>)
    requires parseDate(iso(now)) == Some(now)
    ensures Fresh(Stamp(payload, now, iso), later, parseDate) <==> later < now + DayMs
    ensures later < now + DayMs ==> KeepFresh([Stamp(payload, now, iso)], later, parseDate) == [Stamp(payload, now, iso)]
    ensures later >= now + DayMs ==> KeepFresh([Stamp(payload, now, iso)], later, parseDate) == []
  {
    assert CreatedTime(Stamp(payload, now, iso), parseDate) == Some(now);
  }

  /** The store after `ensureDb`: a missing file becomes the empty list
      unless creating it fails, in which case the error is only logged. */
  function Ensured(store: Store, fails: bool): (r: Store)
    ensures store.Missing? && !fails ==> r == Stored([])
    ensures !store.Missing? || fails ==> r == store
  {
    if store.Missing? && !fails then Stored([]) else store
  }

  class ProjectFile {
    var store: Store

    constructor (store: Store)
      ensures this.store == store
    {
      this.store := store;
    }

    /** `ensureDb`: `fails` says whether creating the directory or the
        empty file fails. */
    method EnsureDb(fails: bool)
      modifies this
      ensures store == Ensured(old(store), fails)
    {
      if store.Missing? && !fails {
        store := Stored([]);
      }
    }

    /** `GET`: `writeFails` says whether rewriting the file fails. */
    method Get(now: int, parseDate: string -> Option<int>, ensureFails: bool, writeFails: bool)
      returns (r: Result<seq<Record>, string>)
      modifies this
      ensures var s := Ensured(old(store), ensureFails);
        !s.Stored? ==> r == Failure(FetchFailedMessage) && store == s
      ensures var s := Ensured(old(store), ensureFails);
        s.Stored? && |KeepFresh(s.projects, now, parseDate)| == |s.projects| ==>
          r == Success(s.projects) && store == s
      ensures var s := Ensured(old(store), ensureFails);
        s.Stored? && |KeepFresh(s.projects, now, parseDate)| != |s.projects| ==>
          (writeFails ==> r == Failure(FetchFailedMessage) && store == s)
          && (!writeFails ==> r == Success(KeepFresh(s.projects, now, parseDate)) && store == Stored(r.value))
    {
      EnsureDb(ensureFails);
      match store {
        case Stored(projects) =>
          var valid := KeepFresh(projects, now, parseDate);
          if |valid| != |projects| {
            if writeFails {
              return Failure(FetchFailedMessage);
            }
            store := Stored(valid);
          } else {
            KeepFreshSameLength(projects, now, parseDate);
          }
          r := Success(valid);
        case Missing =>
          r := Failure(FetchFailedMessage);
        case Corrupt =>
          r := Failure(FetchFailedMessage);
      }
    }

    /** `POST`: `body` is the parsed request body, None when it is not
        valid JSON (a valid body is taken to be an object). */
    method Post(body: Option<Record>, now: nat, iso: int -> string, ensureFails: bool, writeFails: bool)
      returns (r: Result<Record, string>)
      modifies this
      ensures var s := Ensured(old(store), ensureFails);
        body.None? || !s.Stored? || writeFails ==> r == Failure(CreateFailedMessage) && store == s
      ensures var s := Ensured(old(store), ensureFails);
        body.Some? && s.Stored? && !writeFails ==>
          r == Success(Stamp(body.value, now, iso)) && store == Stored([r.value] + s.projects)
    {
      EnsureDb(ensureFails);
      if body.None? || !store.Stored? || writeFails {
        return Failure(CreateFailedMessage);
      }
      var newProject := Stamp(body.value, now, iso);
      store := Stored([newProject] + store.projects);
      r := Success(newProject);
    }
  }

  /** A project created on an empty store comes back from a GET made less
      than 24 hours later, first in the list, with its fields intact. */
  method PostThenGet(payload: Record, now: nat, later: int, iso: int -> string, parseDate: string -> Option<int>)
    returns (created: Result<Record, string>, listed: Result<seq<Record>, string>)
    requires parseDate(iso(now)) == Some(now)
    requires now <= later < now + DayMs
    ensures created.Success? && listed.Success?
    ensures listed.value == [created.value]
    ensures created.value == Stamp(payload, now, iso)
    ensures forall k :: k in payload && k !in {"id", "createdAt", "expiresAt"} ==> created.value[k] == payload[k]
  {
    var file := new ProjectFile(Missing);
    created := file.Post(Some(payload), now, iso, false, false);
    StampedLifetime(payload, now, later, iso, parseDate);
    listed := file.Get(later, parseDate, false, false);
  }
}
