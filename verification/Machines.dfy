/** The Machines and their Apps, in memory and on record. */
module Machines {
  import opened Common
  import Ordered

  type Name = string

  datatype Refusal = NameTaken | HostTaken(owner: Name) | NoSuchMachine | Internal

  datatype AppRecord = AppRecord(machine: Name, host: string)

  /** Whether some Machine has the App, and which App has the hostname. */
  predicate HasApp(entries: map<Name, map<Name, string>>, app: Name) {
    exists m :: m in entries && app in entries[m]
  }

  predicate HostBelongs(entries: map<Name, map<Name, string>>, host: string, app: Name) {
    exists m :: m in entries && app in entries[m] && entries[m][app] == host
  }

  /** Memory and the database say the same, and names and hostnames are each one App's. */
  ghost predicate Agree(entries: map<Name, map<Name, string>>, records: map<Name, AppRecord>) {
    && (forall m, a | m in entries && a in entries[m] :: a in records && records[a] == AppRecord(m, entries[m][a]))
    && (forall a | a in records :: records[a].machine in entries && a in entries[records[a].machine])
    && (forall a, b | a in records && b in records && records[a].host == records[b].host :: a == b)
  }

  lemma NameOnRecord(entries: map<Name, map<Name, string>>, records: map<Name, AppRecord>, app: Name)
    requires Agree(entries, records)
    ensures HasApp(entries, app) <==> app in records
  {
  }

  lemma HostOnRecord(entries: map<Name, map<Name, string>>, records: map<Name, AppRecord>, host: string, app: Name)
    requires Agree(entries, records)
    ensures HostBelongs(entries, host, app) <==> app in records && records[app].host == host
  {
  }

  lemma AgreeWith(entries: map<Name, map<Name, string>>, records: map<Name, AppRecord>, m: Name, app: Name, host: string)
    requires Agree(entries, records) && m in entries && app !in records
    requires forall a | a in records :: records[a].host != host
    ensures Agree(entries[m := entries[m][app := host]], records[app := AppRecord(m, host)])
  {
  }

  lemma AgreeWithout(entries: map<Name, map<Name, string>>, records: map<Name, AppRecord>, m: Name, app: Name)
    requires Agree(entries, records) && m in entries && app in entries[m]
    ensures Agree(entries[m := entries[m] - {app}], records - {app})
  {
    assert records[app].machine == m;
  }

  class Machines {
    var entries: map<Name, map<Name, string>>   // each Machine's Apps, and their hostnames
    var records: map<Name, AppRecord>           // the database's

    ghost predicate Valid()
      reads this
    {
      Agree(entries, records)
    }

    constructor ()
      ensures Valid() && records == map[]
    {
      entries, records := map[], map[];
    }

    /** The Machine that has the App. */
    method MachineOf(app: Name) returns (m: Option<Name>)
      ensures m.Some? ==> m.value in entries && app in entries[m.value]
      ensures m.None? ==> !HasApp(entries, app)
    {
      var left := entries.Keys;
      while left != {}
        invariant left <= entries.Keys
        invariant forall m | m in entries && m !in left :: app !in entries[m]
        decreases left
      {
        var k := Ordered.Least(left);
        if app in entries[k] { return Some(k); }
        left := left - {k};
      }
      return None;
    }

    method AppWithHost(host: string) returns (owner: Option<Name>)
      ensures owner.Some? ==> HostBelongs(entries, host, owner.value)
      ensures owner.None? ==> forall a :: !HostBelongs(entries, host, a)
    {
      var left := entries.Keys;
      while left != {}
        invariant left <= entries.Keys
        invariant forall m, a | m in entries && m !in left && a in entries[m] :: entries[m][a] != host
        decreases left
      {
        var k := Ordered.Least(left);
        left := left - {k};
        var apps := entries[k].Keys;
        while apps != {}
          invariant apps <= entries[k].Keys
          invariant forall a | a in entries[k] && a !in apps :: entries[k][a] != host
          decreases apps
        {
          var a := Ordered.Least(apps);
          if entries[k][a] == host { return Some(a); }
          apps := apps - {a};
        }
      }
      return None;
    }

    method CheckApp(app: Name, machine: Name, host: string) returns (why: Option<Refusal>)
      requires Valid()
      ensures why.None? <==>
        app !in records && (forall a | a in records :: records[a].host != host) && machine in entries
      ensures why.Some? ==>
        if app in records then why.value == NameTaken
        else if exists a :: a in records && records[a].host == host then
          why.value.HostTaken? && why.value.owner in records && records[why.value.owner].host == host
        else why.value == NoSuchMachine
    {
      var taken := MachineOf(app);
      NameOnRecord(entries, records, app);
      if taken.Some? {
        assert HasApp(entries, app);
        return Some(NameTaken);
      }
      var owner := AppWithHost(host);
      forall a { HostOnRecord(entries, records, host, a); }
      if owner.Some? { return Some(HostTaken(owner.value)); }
      forall a | a in records ensures records[a].host != host { assert !HostBelongs(entries, host, a); }
      if machine !in entries { return Some(NoSuchMachine); }
      return None;
    }

    /** Makes an App on a Machine: `connected` when its `ssh` is replaced, `recorded` when the database takes it. */
    method AddApp(app: Name, machine: Name, host: string, connected: bool, recorded: bool) returns (r: Result<(), Refusal>)
      requires Valid()
      modifies this
      ensures Valid() && entries.Keys == old(entries).Keys
      ensures r.Ok? <==>
        && app !in old(records) && (forall a | a in old(records) :: old(records)[a].host != host)
        && machine in old(entries) && connected && recorded
      ensures r.Ok? ==> records == old(records)[app := AppRecord(machine, host)]
      ensures r.Err? ==>
        if app in records then r.error == NameTaken
        else if exists a :: a in records && records[a].host == host then
          r.error.HostTaken? && r.error.owner in records && records[r.error.owner].host == host
        else r.error == if machine in entries then Internal else NoSuchMachine
      ensures r.Err? ==> entries == old(entries) && records == old(records)
    {
      var why := CheckApp(app, machine, host);
      if why.Some? { return Err(why.value); }
      NameOnRecord(entries, records, app);
      assert app !in entries[machine];
      AgreeWith(entries, records, machine, app, host);
      entries := entries[machine := entries[machine][app := host]];
      if !connected || !recorded {
        entries := entries[machine := entries[machine] - {app}];
        assert entries[machine] == old(entries)[machine] && entries == old(entries);
        return Err(Internal);
      }
      records := records[app := AppRecord(machine, host)];
      return Ok(());
    }

    /** Removes an App and says whether there was one; `deleted` when the database lets go of it. */
    method RemoveApp(app: Name, deleted: bool) returns (r: Result<bool, Refusal>)
      requires Valid()
      modifies this
      ensures Valid() && entries.Keys == old(entries).Keys
      ensures r == if app !in old(records) then Ok(false) else if deleted then Ok(true) else Err(Internal)
      ensures records == if r == Ok(true) then old(records) - {app} else old(records)
      ensures r != Ok(true) ==> entries == old(entries)
    {
      var m := MachineOf(app);
      NameOnRecord(entries, records, app);
      if m.None? { return Ok(false); }
      assert HasApp(entries, app);
      if !deleted { return Err(Internal); }
      AgreeWithout(entries, records, m.value, app);
      records := records - {app};
      entries := entries[m.value := entries[m.value] - {app}];
      return Ok(true);
    }
  }
}
