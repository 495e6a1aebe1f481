/** The alerts store (`AlertsProvider`): the user and system alert lists,
    newest first, the two "last alert" pointers that drive the toasts, and
    the id counter shared by both lists. */
module AlertsStore {
  import opened Wrappers
  import opened I18n
  import opened AlertTypes
  import Decimal

  const UserPrefix: string := "ua_"
  const SystemPrefix: string := "sa_"

  /** `${prefix}${n}`. */
  function MakeId(prefix: string, n: nat): (id: string)
    ensures |id| > |prefix|
    ensures id[..|prefix|] == prefix && id[|prefix|..] == Decimal.NatToString(n)
  {
    prefix + Decimal.NatToString(n)
  }

  /** Ids with the same prefix differ when their counter values differ. */
  lemma MakeIdInjective(prefix: string, m: nat, n: nat)
    requires MakeId(prefix, m) == MakeId(prefix, n)
    ensures m == n
  {
    var a, b := MakeId(prefix, m), MakeId(prefix, n);
    assert a[|prefix|..] == Decimal.NatToString(m);
    assert b[|prefix|..] == Decimal.NatToString(n);
    Decimal.NatToStringInjective(m, n);
  }

  /** A user id is never a system id. */
  lemma PrefixesSeparate(m: nat, n: nat)
    ensures MakeId(UserPrefix, m) != MakeId(SystemPrefix, n)
  {
    assert MakeId(UserPrefix, m)[0] == 'u';
    assert MakeId(SystemPrefix, n)[0] == 's';
  }

  /** The ids of `items` are `prefix` followed by the counter values `nos`,
      which strictly decrease from the head (newest) and are all below `next`. */
  ghost predicate NumberedBelow(items: seq<AlertItem>, nos: seq<nat>, prefix: string, next: nat) {
    && |items| == |nos|
    && (forall i :: 0 <= i < |items| ==> items[i].id == MakeId(prefix, nos[i]))
    && (forall i, j :: 0 <= i < j < |nos| ==> nos[j] < nos[i])
    && (forall i :: 0 <= i < |nos| ==> nos[i] < next)
  }

  /** No two items of a list numbered this way share an id. */
  lemma DistinctIds(items: seq<AlertItem>, nos: seq<nat>, prefix: string, next: nat)
    requires NumberedBelow(items, nos, prefix, next)
    ensures forall i, j :: 0 <= i < j < |items| ==> items[i].id != items[j].id
  {
    forall i, j | 0 <= i < j < |items|
      ensures items[i].id != items[j].id
    {
      if items[i].id == items[j].id {
        MakeIdInjective(prefix, nos[i], nos[j]);
      }
    }
  }

  /** An id made from a counter value not yet used is not in the list. */
  lemma FreshId(items: seq<AlertItem>, nos: seq<nat>, prefix: string, next: nat, n: nat)
    requires NumberedBelow(items, nos, prefix, next)
    requires n >= next
    ensures forall i :: 0 <= i < |items| ==> items[i].id != MakeId(prefix, n)
  {
    forall i | 0 <= i < |items|
      ensures items[i].id != MakeId(prefix, n)
    {
      if items[i].id == MakeId(prefix, n) {
        MakeIdInjective(prefix, nos[i], n);
      }
    }
  }

  /** `prev.map(it => it.id === id ? { ...it, subtitle } : it)`. */
  function WithSubtitle(items: seq<AlertItem>, id: string, subtitle: I18nText): (r: seq<AlertItem>)
    ensures |r| == |items|
    ensures forall i :: 0 <= i < |items| ==> r[i].(subtitle := items[i].subtitle) == items[i]
    ensures forall i :: 0 <= i < |items| ==>
              r[i].subtitle == (if items[i].id == id then Some(subtitle) else items[i].subtitle)
  {
    seq(|items|, i requires 0 <= i < |items| =>
      if items[i].id == id then items[i].(subtitle := Some(subtitle)) else items[i])
  }

  /** The pointer after `updateUserAlertSubtitle`: it gets the new subtitle
      only when it has that id. */
  function SubtitledPointer(p: Option<AlertItem>, id: string, subtitle: I18nText): (r: Option<AlertItem>)
    ensures r.Some? <==> p.Some?
    ensures p.Some? && p.value.id == id ==> r == Some(p.value.(subtitle := Some(subtitle)))
    ensures p.Some? && p.value.id != id ==> r == p
  {
    if p.Some? && p.value.id == id then Some(p.value.(subtitle := Some(subtitle))) else p
  }

  /** Updating an id that is not in the list changes nothing. */
  lemma WithSubtitleUnknownId(items: seq<AlertItem>, id: string, subtitle: I18nText)
    requires forall i :: 0 <= i < |items| ==> items[i].id != id
    ensures WithSubtitle(items, id, subtitle) == items
  {
  }

  /** `useAlerts`: the store of the enclosing provider, or the error thrown
      when there is none. */
  const UseAlertsError: string := "useAlerts must be used within AlertsProvider"

  function UseAlerts<T>(ctx: Option<T>): (r: Result<T, string>)
    ensures r.Success? <==> ctx.Some?
    ensures ctx.Some? ==> r.value == ctx.value
    ensures ctx.None? ==> r.error == UseAlertsError
  {
    match ctx
    case Some(v) => Success(v)
    case None => Failure(UseAlertsError)
  }

  class AlertsProvider {
    var userAlerts: seq<AlertItem>
    var systemAlerts: seq<AlertItem>
    var lastUserAlert: Option<AlertItem>
    var lastSystemAlert: Option<AlertItem>
    /** `idSeq.current`: the next counter value, shared by both lists. */
    var idSeq: nat
    /** The counter value behind each id, in list order. */
    ghost var userNos: seq<nat>
    ghost var systemNos: seq<nat>

    ghost predicate Valid()
      reads this
    {
      && idSeq >= 1
      && NumberedBelow(userAlerts, userNos, UserPrefix, idSeq)
      && NumberedBelow(systemAlerts, systemNos, SystemPrefix, idSeq)
      // one counter feeds both lists
      && (forall i, j :: 0 <= i < |userNos| && 0 <= j < |systemNos| ==> userNos[i] != systemNos[j])
      // a pointer, while set, is the newest item of its list
      && (lastUserAlert.Some? ==> userAlerts != [] && lastUserAlert.value == userAlerts[0])
      && (lastSystemAlert.Some? ==> systemAlerts != [] && lastSystemAlert.value == systemAlerts[0])
    }

    constructor ()
      ensures Valid()
      ensures userAlerts == [] && systemAlerts == []
      ensures lastUserAlert == None && lastSystemAlert == None
      ensures idSeq == 1
    {
      userAlerts, systemAlerts := [], [];
      lastUserAlert, lastSystemAlert := None, None;
      idSeq := 1;
      userNos, systemNos := [], [];
    }

    /** Every id in the store is unique, within each list and across both. */
    lemma IdsUnique()
      requires Valid()
      ensures forall i, j :: 0 <= i < j < |userAlerts| ==> userAlerts[i].id != userAlerts[j].id
      ensures forall i, j :: 0 <= i < j < |systemAlerts| ==> systemAlerts[i].id != systemAlerts[j].id
      ensures forall i, j :: 0 <= i < |userAlerts| && 0 <= j < |systemAlerts| ==>
                userAlerts[i].id != systemAlerts[j].id
    {
      DistinctIds(userAlerts, userNos, UserPrefix, idSeq);
      DistinctIds(systemAlerts, systemNos, SystemPrefix, idSeq);
      forall i, j | 0 <= i < |userAlerts| && 0 <= j < |systemAlerts|
        ensures userAlerts[i].id != systemAlerts[j].id
      {
        PrefixesSeparate(userNos[i], systemNos[j]);
      }
    }

    /** `addUserAlert`: prepends one new item with a fresh id and the
        creation time, points `lastUserAlert` at it and returns its id. */
    method AddUserAlert(a: AlertFields, now: int) returns (id: string)
      requires Valid()
      modifies this
      ensures Valid()
      ensures id == MakeId(UserPrefix, old(idSeq)) && idSeq == old(idSeq) + 1
      ensures userAlerts == [NewItem(id, now, a)] + old(userAlerts)
      ensures lastUserAlert == Some(userAlerts[0])
      ensures systemAlerts == old(systemAlerts) && lastSystemAlert == old(lastSystemAlert)
      ensures forall it :: it in old(userAlerts) + old(systemAlerts) ==> it.id != id
    {
      id := MakeId(UserPrefix, idSeq);
      FreshId(userAlerts, userNos, UserPrefix, idSeq, idSeq);
      forall it | it in systemAlerts ensures it.id != id {
        var j :| 0 <= j < |systemAlerts| && systemAlerts[j] == it;
        PrefixesSeparate(idSeq, systemNos[j]);
      }
      var item := NewItem(id, now, a);
      userAlerts := [item] + userAlerts;
      userNos := [idSeq] + userNos;
      lastUserAlert := Some(item);
      idSeq := idSeq + 1;
    }

    /** `addSystemAlert`: the same on the system list, with the `sa_` prefix. */
    method AddSystemAlert(a: AlertFields, now: int) returns (id: string)
      requires Valid()
      modifies this
      ensures Valid()
      ensures id == MakeId(SystemPrefix, old(idSeq)) && idSeq == old(idSeq) + 1
      ensures systemAlerts == [NewItem(id, now, a)] + old(systemAlerts)
      ensures lastSystemAlert == Some(systemAlerts[0])
      ensures userAlerts == old(userAlerts) && lastUserAlert == old(lastUserAlert)
      ensures forall it :: it in old(userAlerts) + old(systemAlerts) ==> it.id != id
    {
      id := MakeId(SystemPrefix, idSeq);
      FreshId(systemAlerts, systemNos, SystemPrefix, idSeq, idSeq);
      forall it | it in userAlerts ensures it.id != id {
        var j :| 0 <= j < |userAlerts| && userAlerts[j] == it;
        PrefixesSeparate(userNos[j], idSeq);
      }
      var item := NewItem(id, now, a);
      systemAlerts := [item] + systemAlerts;
      systemNos := [idSeq] + systemNos;
      lastSystemAlert := Some(item);
      idSeq := idSeq + 1;
    }

    /** `updateUserAlertSubtitle`: replaces the subtitle of the user items with
        that id, and of the pointer when it has that id; nothing else changes. */
    method UpdateUserAlertSubtitle(id: string, subtitle: I18nText)
      requires Valid()
      modifies this
      ensures Valid()
      ensures userAlerts == WithSubtitle(old(userAlerts), id, subtitle)
      ensures lastUserAlert == SubtitledPointer(old(lastUserAlert), id, subtitle)
      ensures systemAlerts == old(systemAlerts) && lastSystemAlert == old(lastSystemAlert)
      ensures idSeq == old(idSeq)
    {
      userAlerts := WithSubtitle(userAlerts, id, subtitle);
      if lastUserAlert.Some? && lastUserAlert.value.id == id {
        lastUserAlert := Some(lastUserAlert.value.(subtitle := Some(subtitle)));
      }
    }

    /** `consumeLastUserAlert`: clears the pointer; the lists are untouched. */
    method ConsumeLastUserAlert()
      requires Valid()
      modifies this
      ensures Valid()
      ensures lastUserAlert == None
      ensures userAlerts == old(userAlerts) && systemAlerts == old(systemAlerts)
      ensures lastSystemAlert == old(lastSystemAlert) && idSeq == old(idSeq)
    {
      lastUserAlert := None;
    }

    /** `consumeLastSystemAlert`. */
    method ConsumeLastSystemAlert()
      requires Valid()
      modifies this
      ensures Valid()
      ensures lastSystemAlert == None
      ensures userAlerts == old(userAlerts) && systemAlerts == old(systemAlerts)
      ensures lastUserAlert == old(lastUserAlert) && idSeq == old(idSeq)
    {
      lastSystemAlert := None;
    }
  }
}
