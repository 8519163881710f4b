/** The alert queue of `AlertContext`: `showAlert` appends an alert and
    schedules its expiry, the expiry timer and the dismiss button both drop
    every alert with a given id. */
module AlertContext {
  import Seqs

  datatype AlertKind = Success | Error

  datatype Alert = Alert(id: string, kind: AlertKind, message: string)

  /** `prev.filter(alert => alert.id !== id)`. */
  function RemoveId(s: seq<Alert>, id: string): (r: seq<Alert>)
    ensures |r| <= |s|
  {
    Seqs.Filter(s, (a: Alert) => a.id != id)
  }

  /** Removal keeps exactly the alerts whose id differs. */
  lemma RemoveIdMembers(s: seq<Alert>, id: string)
    ensures forall a :: a in RemoveId(s, id) <==> a in s && a.id != id
  {
  }

  /** Removal keeps every other alert as often as it occurred. */
  lemma RemoveIdMultiset(s: seq<Alert>, id: string)
    ensures forall a :: multiset(RemoveId(s, id))[a] == if a.id != id then multiset(s)[a] else 0
  {
    Seqs.FilterMultiset(s, (a: Alert) => a.id != id);
  }

  /** Removal keeps the relative order: removing from a concatenation removes from each part. */
  lemma RemoveIdConcat(s: seq<Alert>, t: seq<Alert>, id: string)
    ensures RemoveId(s + t, id) == RemoveId(s, id) + RemoveId(t, id)
  {
    Seqs.FilterConcat(s, t, (a: Alert) => a.id != id);
  }

  /** Removing an id that is not in the queue changes nothing: a dismiss after expiry is a no-op. */
  lemma RemoveIdAbsent(s: seq<Alert>, id: string)
    requires forall i :: 0 <= i < |s| ==> s[i].id != id
    ensures RemoveId(s, id) == s
  {
    Seqs.FilterAllPass(s, (a: Alert) => a.id != id);
  }

  /** Removing the same id twice is removing it once. */
  lemma RemoveIdIdempotent(s: seq<Alert>, id: string)
    ensures RemoveId(RemoveId(s, id), id) == RemoveId(s, id)
  {
    Seqs.FilterIdempotent(s, (a: Alert) => a.id != id);
  }

  /** When exactly one alert carries the id, removal deletes exactly that alert. */
  lemma RemoveUnique(s: seq<Alert>, id: string, k: int)
    requires 0 <= k < |s| && s[k].id == id
    requires forall j :: 0 <= j < |s| && j != k ==> s[j].id != id
    ensures RemoveId(s, id) == s[..k] + s[k + 1..]
  {
    var before, rest, after := s[..k], s[k..], s[k + 1..];
    assert s == before + rest;
    assert rest == [s[k]] + after;
    RemoveIdAbsent(before, id);
    RemoveIdAbsent(after, id);
    RemoveIdConcat(before, rest, id);
    assert RemoveId(rest, id) == RemoveId(after, id);
  }

  /** The alert queue together with the expiry timers it has scheduled. */
  class AlertCenter {
    /** The alerts on screen, oldest first. */
    var alerts: seq<Alert>
    /** One pending expiry per `showAlert` whose timer has not fired yet, by alert id. */
    var timers: multiset<string>

    /** Every alert on screen has a pending expiry. */
    ghost predicate Valid()
      reads this
    {
      forall i :: 0 <= i < |alerts| ==> alerts[i].id in timers
    }

    constructor ()
      ensures Valid()
      ensures alerts == [] && timers == multiset{}
    {
      alerts := [];
      timers := multiset{};
    }

    /** `showAlert(kind, message)`, with the random id given as `id`: appends one
        alert at the tail and schedules one expiry for that id. */
    method ShowAlert(id: string, kind: AlertKind, message: string)
      requires Valid()
      modifies this
      ensures Valid()
      ensures alerts == old(alerts) + [Alert(id, kind, message)]
      ensures timers == old(timers) + multiset{id}
    {
      alerts := alerts + [Alert(id, kind, message)];
      timers := timers + multiset{id};
    }

    /** The expiry timer of one `showAlert` fires five seconds later. */
    method Expire(id: string)
      requires Valid()
      requires id in timers
      modifies this
      ensures Valid()
      ensures alerts == RemoveId(old(alerts), id)
      ensures timers == old(timers) - multiset{id}
    {
      var kept := RemoveId(alerts, id);
      RemoveIdMembers(alerts, id);
      forall i | 0 <= i < |kept| ensures kept[i].id in timers - multiset{id} {
        assert kept[i] in alerts;
      }
      alerts := kept;
      timers := timers - multiset{id};
    }

    /** The close button of an alert: drops the alerts with that id and leaves
        its expiry pending. */
    method Dismiss(id: string)
      requires Valid()
      modifies this
      ensures Valid()
      ensures alerts == RemoveId(old(alerts), id)
      ensures timers == old(timers)
    {
      var kept := RemoveId(alerts, id);
      RemoveIdMembers(alerts, id);
      forall i | 0 <= i < |kept| ensures kept[i].id in timers {
        assert kept[i] in alerts;
      }
      alerts := kept;
    }
  }
}
