/**
 * `generateRefreshSchedulesCFN`: for a SPICE data set, one
 * AWS::QuickSight::RefreshSchedule resource per schedule of the source
 * account, keyed "RSchedule<schedule id>", depending on the data set and
 * starting one month or one week after the synthesis time.
 */
module ScheduleGen {
  import opened Results
  import opened Json
  import opened Text
  import opened Dates
  import opened QuickSight
  import opened DataSets
  import opened Documents

  const Monthly: string := "MONTHLY"

  /** The resource key of a refresh schedule: "RSchedule" and the id without hyphens. */
  function ScheduleCfnId(scheduleId: string): (key: string)
    ensures HasSchedulePrefix(key) && '-' !in key
  {
    "RSchedule" + RemoveHyphens(scheduleId)
  }

  predicate HasSchedulePrefix(key: string) {
    |key| >= 9 && key[..9] == "RSchedule"
  }

  /** No data-set key is a schedule key. */
  lemma DataSetKeyIsNoScheduleKey(id: string)
    ensures !HasSchedulePrefix(DataSetCfnId(id))
  {
    assert DataSetCfnId(id)[0] == 'D';
  }

  /**
   * `StartAfterDateTime`: `now + relativedelta(months=+1)` for a MONTHLY
   * interval, seven days later for WEEKLY and for every other interval.
   */
  function StartAfter(now: Instant, interval: Json): (r: Result<DateTime>)
    ensures r.Ok? ==> Representable(r.value)
    ensures r.Ok? ==> r.value.hour == now.hour && r.value.minute == now.minute && r.value.second == now.second
    ensures interval == JStr(Monthly) ==> (r.Ok? <==> now.month < 12 || now.year < MaxYear)
    ensures interval == JStr(Monthly) && r.Ok? ==>
      r.value.month == (if now.month == 12 then 1 else now.month + 1)
      && Ordinal(r.value) == Ordinal(now) + DaysInMonth(now.year, now.month) - (now.day - r.value.day)
    ensures interval != JStr(Monthly) ==> (r.Ok? <==> ShiftDays(now, 7).year <= MaxYear)
    ensures interval != JStr(Monthly) && r.Ok? ==> Ordinal(r.value) == Ordinal(now) + 7
  {
    if interval == JStr(Monthly) then
      var later := AddMonth(now);
      if later.Ok? then AddMonthOrdinal(now); later else later
    else
      ShiftDaysOrdinal(now, 7);
      AddWeek(now)
  }

  /**
   * `d.pop(k)` with a string key: the value and the dict without it. A dict
   * without the key is a KeyError, a list (whose `pop` wants an integer) a
   * TypeError, and any other value, which has no `pop`, an AttributeError.
   */
  function Pop(j: Json, k: string): (r: Result<(Json, OrdMap<Json>)>)
    ensures r.Ok? <==> j.JObj? && k in j.obj.vals
    ensures r.Ok? ==> r.value.0 == j.obj.vals[k] && k !in r.value.1.vals
    ensures r.Ok? ==> forall x :: x != k && x in j.obj.vals ==> x in r.value.1.vals && r.value.1.vals[x] == j.obj.vals[x]
    ensures j.JObj? && k !in j.obj.vals ==> r == Err(KeyError(k))
    ensures j.JList? ==> r.Err? && r.error.TypeError?
    ensures !j.JObj? && !j.JList? ==> r.Err? && r.error.AttributeError?
  {
    match j
    case JObj(m) => if k in m.vals then Ok((m.vals[k], m.Remove(k))) else Err(KeyError(k))
    case JList(_) => Err(TypeError(NotAnIndex))
    case _ => Err(AttributeError("pop"))
  }

  const NotAnIndex: string := "'str' object cannot be interpreted as an integer"

  /** The `ScheduleFrequency` dict with `Timezone` renamed to `TimeZone`. */
  function RenameTimezone(freq: Json): (r: Result<Json>)
    ensures r.Ok? <==> freq.JObj? && "Timezone" in freq.obj.vals
    ensures r.Ok? ==> Field(r.value, "TimeZone") == Field(freq, "Timezone") && Field(r.value, "Timezone").Err?
    ensures r.Ok? ==> forall x :: x != "Timezone" && x != "TimeZone" ==> Field(r.value, x) == Field(freq, x)
  {
    var (tz, rest) :- Pop(freq, "Timezone");
    Ok(JObj(rest.Put("TimeZone", tz)))
  }

  /** The id of a `list_refresh_schedules` entry, used as a string. */
  function ScheduleIdOf(entry: Json): Result<string> {
    var sid :- Field(entry, "ScheduleId");
    AsStr(sid)
  }

  /** `described['RefreshSchedule']['ScheduleFrequency']`. */
  function FrequencyOf(described: Json): Result<Json> {
    var sched :- Field(described, "RefreshSchedule");
    Field(sched, "ScheduleFrequency")
  }

  /**
   * The `Schedule` written into the resource: the described schedule with
   * its frequency's time zone renamed and a start time added.
   */
  function NewSchedule(described: Json, now: Instant): (r: Result<Json>)
    ensures r.Ok? ==> FrequencyOf(described).Ok? && Field(r.value, "ScheduleFrequency").Ok?
    ensures r.Ok? ==> Field(r.value, "ScheduleFrequency") == RenameTimezone(FrequencyOf(described).value)
    ensures r.Ok? ==> var interval := Field(FrequencyOf(described).value, "Interval");
      interval.Ok? && StartAfter(now, interval.value).Ok?
      && Field(r.value, "StartAfterDateTime") == Ok(JStr(Format(StartAfter(now, interval.value).value)))
    ensures FrequencyOf(described).Ok? && RenameTimezone(FrequencyOf(described).value).Err? ==> r.Err?
  {
    var sched :- Field(described, "RefreshSchedule");
    var freq :- Field(sched, "ScheduleFrequency");
    var freq' :- RenameTimezone(freq);
    var interval :- Field(freq, "Interval");
    var start :- StartAfter(now, interval);
    Ok(JObj(sched.obj.Put("ScheduleFrequency", freq').Put("StartAfterDateTime", JStr(Format(start)))))
  }

  /** One loop iteration: the key and the resource for one schedule of the data set. */
  function ScheduleEntry(dataSetId: string, entry: Json, env: Env): (r: Result<(string, Json)>)
    ensures r.Ok? ==> ScheduleIdOf(entry).Ok? && r.value.0 == ScheduleCfnId(ScheduleIdOf(entry).value)
    ensures r.Ok? ==> Field(r.value.1, "DependsOn") == Ok(JStr(DataSetCfnId(dataSetId)))
    ensures r.Ok? ==> DescribeRefreshSchedule(env.account, dataSetId, ScheduleIdOf(entry).value).Ok?
  {
    var sid :- ScheduleIdOf(entry);
    var described :- DescribeRefreshSchedule(env.account, dataSetId, sid);
    var skel := env.skeletons.refreshSchedule;
    var props :- PropertiesOf(skel);
    var sched :- NewSchedule(described, env.now);
    Ok((ScheduleCfnId(sid), ScheduleResource(skel, props, dataSetId, sched)))
  }

  /** The skeleton with the data set's id, the schedule and the dependency filled in. */
  function ScheduleResource(skel: Json, props: OrdMap<Json>, dataSetId: string, sched: Json): (r: Json)
    requires skel.JObj?
    ensures Field(r, "DependsOn") == Ok(JStr(DataSetCfnId(dataSetId)))
    ensures ScheduleOf(r) == Ok(sched)
  {
    var props' := props.Put("DataSetId", JStr(dataSetId)).Put("Schedule", sched);
    var r := JObj(skel.obj.Put("Properties", JObj(props')).Put("DependsOn", JStr(DataSetCfnId(dataSetId))));
    assert Field(r, "Properties") == Ok(JObj(props'));
    r
  }

  /** The schedule a resource carries is the described one, made into a new schedule. */
  lemma ScheduleEntrySchedule(dataSetId: string, entry: Json, env: Env)
    requires ScheduleEntry(dataSetId, entry, env).Ok?
    ensures DescribeRefreshSchedule(env.account, dataSetId, ScheduleIdOf(entry).value).Ok?
    ensures ScheduleOf(ScheduleEntry(dataSetId, entry, env).value.1)
            == NewSchedule(DescribeRefreshSchedule(env.account, dataSetId, ScheduleIdOf(entry).value).value, env.now)
  {
    var sid := ScheduleIdOf(entry).value;
    var described := DescribeRefreshSchedule(env.account, dataSetId, sid).value;
    var skel := env.skeletons.refreshSchedule;
    var props := PropertiesOf(skel).value;
    var sched := NewSchedule(described, env.now).value;
    assert ScheduleEntry(dataSetId, entry, env).value.1 == ScheduleResource(skel, props, dataSetId, sched);
  }

  /**
   * Every schedule resource carries the described schedule with `TimeZone`
   * holding the former `Timezone` value, no `Timezone` key, and the start
   * time `StartAfter` computes from the interval.
   */
  lemma ScheduleEntryRenames(dataSetId: string, entry: Json, env: Env)
    requires ScheduleEntry(dataSetId, entry, env).Ok?
    ensures var described := DescribeRefreshSchedule(env.account, dataSetId, ScheduleIdOf(entry).value).value;
      var sched := ScheduleOf(ScheduleEntry(dataSetId, entry, env).value.1);
      sched.Ok? && FrequencyOf(described).Ok?
      && var freq := FrequencyOf(described).value;
      var freq' := Field(sched.value, "ScheduleFrequency");
      freq'.Ok? && Field(freq'.value, "TimeZone") == Field(freq, "Timezone") && Field(freq'.value, "Timezone").Err?
      && Field(freq, "Interval").Ok? && StartAfter(env.now, Field(freq, "Interval").value).Ok?
      && Field(sched.value, "StartAfterDateTime") == Ok(JStr(Format(StartAfter(env.now, Field(freq, "Interval").value).value)))
  {
    ScheduleEntrySchedule(dataSetId, entry, env);
  }

  /** `resource['Properties']['Schedule']`. */
  function ScheduleOf(resource: Json): Result<Json> {
    var props :- Field(resource, "Properties");
    Field(props, "Schedule")
  }

  /** The loop over the listed schedules, first to last. */
  function SchedulesFrom(res: OrdMap<Json>, dataSetId: string, entries: seq<Json>, env: Env): Result<OrdMap<Json>>
    decreases |entries|
  {
    if entries == [] then Ok(res)
    else
      var (key, resource) :- ScheduleEntry(dataSetId, entries[0], env);
      SchedulesFrom(res.Put(key, resource), dataSetId, entries[1..], env)
  }

  /** A resource left as it was, or a schedule resource depending on the data set. */
  ghost predicate KeptOrSchedule(res: OrdMap<Json>, res': OrdMap<Json>, dataSetId: string) {
    forall k :: k in res'.vals ==>
      (k in res.vals && res'.vals[k] == res.vals[k])
      || (HasSchedulePrefix(k) && Field(res'.vals[k], "DependsOn") == Ok(JStr(DataSetCfnId(dataSetId))))
  }

  /** The key a listed schedule's resource goes under. */
  function EntryKey(entry: Json): (r: Result<string>)
    ensures r.Ok? ==> HasSchedulePrefix(r.value)
  {
    var sid :- ScheduleIdOf(entry);
    Ok(ScheduleCfnId(sid))
  }

  /** No schedule listed after position `i` has the key of the one at `i`. */
  ghost predicate LastWithKey(entries: seq<Json>, i: nat) {
    forall j :: i < j < |entries| ==> EntryKey(entries[j]) != EntryKey(entries[i])
  }

  /** The key and resource of every listed schedule, in order; the first that fails stops it. */
  function ScheduleEntries(dataSetId: string, entries: seq<Json>, env: Env): (r: Result<seq<(string, Json)>>)
    ensures r.Ok? ==> |r.value| == |entries|
    decreases |entries|
  {
    if entries == [] then Ok([])
    else
      var e :- ScheduleEntry(dataSetId, entries[0], env);
      var rest :- ScheduleEntries(dataSetId, entries[1..], env);
      Ok([e] + rest)
  }

  /** The `i`-th of them is the `i`-th schedule's entry, under its key. */
  lemma {:induction false} ScheduleEntriesAt(dataSetId: string, entries: seq<Json>, env: Env, i: nat)
    requires ScheduleEntries(dataSetId, entries, env).Ok? && i < |entries|
    ensures ScheduleEntry(dataSetId, entries[i], env) == Ok(ScheduleEntries(dataSetId, entries, env).value[i])
    decreases |entries|
  {
    var e := ScheduleEntry(dataSetId, entries[0], env).value;
    var rest := ScheduleEntries(dataSetId, entries[1..], env).value;
    assert ScheduleEntries(dataSetId, entries, env).value == [e] + rest;
    if i > 0 {
      assert entries[i] == entries[1..][i - 1];
      ScheduleEntriesAt(dataSetId, entries[1..], env, i - 1);
    }
  }

  /** A schedule's resource goes under its key. */
  lemma EntryKeyOf(dataSetId: string, entry: Json, env: Env)
    requires ScheduleEntry(dataSetId, entry, env).Ok?
    ensures EntryKey(entry) == Ok(ScheduleEntry(dataSetId, entry, env).value.0)
  {
  }

  /** The loop puts the listed schedules' resources one after the other. */
  lemma {:induction false} SchedulesFromPutAll(res: OrdMap<Json>, dataSetId: string, entries: seq<Json>, env: Env)
    requires SchedulesFrom(res, dataSetId, entries, env).Ok?
    ensures ScheduleEntries(dataSetId, entries, env).Ok?
    ensures SchedulesFrom(res, dataSetId, entries, env) == Ok(PutAll(res, ScheduleEntries(dataSetId, entries, env).value))
    decreases |entries|
  {
    if entries != [] {
      var e := ScheduleEntry(dataSetId, entries[0], env).value;
      SchedulesFromPutAll(res.Put(e.0, e.1), dataSetId, entries[1..], env);
      var rest := ScheduleEntries(dataSetId, entries[1..], env).value;
      assert PutAll(res, [e]) == res.Put(e.0, e.1) by {
        assert [e][..0] == [];
      }
      PutAllAppend(res, [e], rest);
    }
  }

  /**
   * The resource a listed schedule leaves under its key: the one its own
   * iteration built, unless a later schedule of the same key replaced it.
   */
  lemma SchedulesFromValue(res: OrdMap<Json>, dataSetId: string, entries: seq<Json>, env: Env, i: nat)
    requires SchedulesFrom(res, dataSetId, entries, env).Ok? && i < |entries| && LastWithKey(entries, i)
    ensures ScheduleEntry(dataSetId, entries[i], env).Ok?
    ensures var e := ScheduleEntry(dataSetId, entries[i], env).value;
      e.0 in SchedulesFrom(res, dataSetId, entries, env).value.vals
      && SchedulesFrom(res, dataSetId, entries, env).value.vals[e.0] == e.1
  {
    SchedulesFromPutAll(res, dataSetId, entries, env);
    var pairs := ScheduleEntries(dataSetId, entries, env).value;
    ScheduleEntriesAt(dataSetId, entries, env, i);
    EntryKeyOf(dataSetId, entries[i], env);
    forall j | i < j < |pairs|
      ensures pairs[j].0 != pairs[i].0
    {
      ScheduleEntriesAt(dataSetId, entries, env, j);
      EntryKeyOf(dataSetId, entries[j], env);
    }
    PutAllLast(res, pairs, i);
  }

  /**
   * After the loop every listed schedule has its resource, every earlier
   * resource keeps its place, and every resource that changed is a
   * schedule of this data set.
   */
  lemma {:induction false} SchedulesFromSpec(res: OrdMap<Json>, dataSetId: string, entries: seq<Json>, env: Env)
    requires SchedulesFrom(res, dataSetId, entries, env).Ok?
    ensures var res' := SchedulesFrom(res, dataSetId, entries, env).value;
      Extends(res, res') && KeptOrSchedule(res, res', dataSetId)
      && (forall i :: 0 <= i < |entries| ==>
            ScheduleEntry(dataSetId, entries[i], env).Ok? && ScheduleEntry(dataSetId, entries[i], env).value.0 in res'.vals)
      && forall k :: k in res.vals && !HasSchedulePrefix(k) ==> k in res'.vals && res'.vals[k] == res.vals[k]
    decreases |entries|
  {


    if entries == [] {
      ExtendsReflexive(res);
    } else {
      var (key, resource) := ScheduleEntry(dataSetId, entries[0], env).value;
      var mid := res.Put(key, resource);
      SchedulesFromSpec(mid, dataSetId, entries[1..], env);
      var res' := SchedulesFrom(res, dataSetId, entries, env).value;
      ExtendsPut(res, key, resource);
      ExtendsTransitive(res, mid, res');
      forall i | 0 <= i < |entries|
        ensures ScheduleEntry(dataSetId, entries[i], env).Ok? && ScheduleEntry(dataSetId, entries[i], env).value.0 in res'.vals
      {
        if i > 0 {
          assert entries[i] == entries[1..][i - 1];
        }
      }
    }
  }

  /**
   * After the loop each listed schedule's key holds the resource built for
   * it (the schedule with `TimeZone` and `StartAfterDateTime`, depending on
   * the data set), unless a later schedule of the same key replaced it.
   */
  lemma SchedulesFromValues(res: OrdMap<Json>, dataSetId: string, entries: seq<Json>, env: Env)
    requires SchedulesFrom(res, dataSetId, entries, env).Ok?
    ensures var res' := SchedulesFrom(res, dataSetId, entries, env).value;
      forall i :: 0 <= i < |entries| && LastWithKey(entries, i) ==>
        ScheduleEntry(dataSetId, entries[i], env).Ok?
        && ScheduleEntry(dataSetId, entries[i], env).value.0 in res'.vals
        && res'.vals[ScheduleEntry(dataSetId, entries[i], env).value.0] == ScheduleEntry(dataSetId, entries[i], env).value.1
  {
    forall i | 0 <= i < |entries| && LastWithKey(entries, i)
      ensures var e := ScheduleEntry(dataSetId, entries[i], env);
        e.Ok? && e.value.0 in SchedulesFrom(res, dataSetId, entries, env).value.vals
        && SchedulesFrom(res, dataSetId, entries, env).value.vals[e.value.0] == e.value.1
    {
      SchedulesFromValue(res, dataSetId, entries, env, i);
    }
  }

  /** `generateRefreshSchedulesCFN` on the Resources section. */
  function RefreshSchedulesSpec(res: OrdMap<Json>, ds: DataSetInfo, env: Env): (r: Result<OrdMap<Json>>)
    ensures ds.importMode != SPICE ==> r == Ok(res)
    ensures ds.importMode == SPICE && ds.id !in env.account.scheduleLists ==> r.Err?
  {
    if ds.importMode != SPICE then Ok(res)
    else
      var entries :- ListRefreshSchedules(env.account, ds.id);
      SchedulesFrom(res, ds.id, entries, env)
  }

  /** What the schedules leave of the Resources section. */
  lemma RefreshSchedulesKeep(res: OrdMap<Json>, ds: DataSetInfo, env: Env)
    requires RefreshSchedulesSpec(res, ds, env).Ok?
    ensures var res' := RefreshSchedulesSpec(res, ds, env).value;
      Extends(res, res') && KeptOrSchedule(res, res', ds.id)
      && forall k :: k in res.vals && !HasSchedulePrefix(k) ==> k in res'.vals && res'.vals[k] == res.vals[k]
  {
    if ds.importMode != SPICE {
      ExtendsReflexive(res);
    } else {
      SchedulesFromSpec(res, ds.id, env.account.scheduleLists[ds.id], env);
    }
  }

  /** What the schedules leave under their own keys: for a SPICE data set, each listed schedule's resource. */
  lemma RefreshSchedulesValues(res: OrdMap<Json>, ds: DataSetInfo, env: Env)
    requires RefreshSchedulesSpec(res, ds, env).Ok? && ds.importMode == SPICE
    ensures ds.id in env.account.scheduleLists
    ensures var entries := env.account.scheduleLists[ds.id];
      var res' := RefreshSchedulesSpec(res, ds, env).value;
      forall i :: 0 <= i < |entries| && LastWithKey(entries, i) ==>
        ScheduleEntry(ds.id, entries[i], env).Ok?
        && ScheduleEntry(ds.id, entries[i], env).value.0 in res'.vals
        && res'.vals[ScheduleEntry(ds.id, entries[i], env).value.0] == ScheduleEntry(ds.id, entries[i], env).value.1
  {
    SchedulesFromValues(res, ds.id, env.account.scheduleLists[ds.id], env);
  }

  /** `generateRefreshSchedulesCFN(datasetObj, appendContent)`, one schedule per iteration. */
  method GenerateRefreshSchedules(doc: TemplateDoc, ds: DataSetDef, env: Env) returns (r: Result<()>)
    modifies doc
    ensures var spec := RefreshSchedulesSpec(old(doc.resources), old(ds.Info()), env);
      (r.Ok? <==> spec.Ok?) && (r.Ok? ==> doc.resources == spec.value) && (r.Err? ==> r.error == spec.error)
    ensures doc.parameters == old(doc.parameters) && doc.outputs == old(doc.outputs)
  {
    if ds.importMode != SPICE {
      return Ok(());
    }
    var listed := ListRefreshSchedules(env.account, ds.id);
    if listed.Err? {
      return Err(listed.error);
    }
    var entries := listed.value;
    var i := 0;
    while i < |entries|
      invariant 0 <= i <= |entries|
      invariant doc.parameters == old(doc.parameters) && doc.outputs == old(doc.outputs)
      invariant SchedulesFrom(old(doc.resources), ds.id, entries, env) == SchedulesFrom(doc.resources, ds.id, entries[i..], env)
    {
      var step := ScheduleEntry(ds.id, entries[i], env);
      assert entries[i..][0] == entries[i] && entries[i..][1..] == entries[i + 1..];
      if step.Err? {
        return Err(step.error);
      }
      doc.resources := doc.resources.Put(step.value.0, step.value.1);
      i := i + 1;
    }
    return Ok(());
  }
}
