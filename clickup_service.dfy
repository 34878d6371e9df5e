/**
 * The task-board side of services/clickupService.js: the custom-field
 * cache, the fuzzy match of a value to a dropdown option, and whether a
 * medication updates an existing task's phase or creates a new task with
 * its fields. The REST calls are not modelled; their answers are inputs
 * and the writes are returned.
 */
module ClickUpService {
  import opened Wrappers
  import opened Text
  import opened Seqs
  import opened OpenAIService

  // ---------------------------------------------------------------------
  // Custom fields and their options
  // ---------------------------------------------------------------------

  /** An option's value, `option.id || option.orderindex`: an id, an order index, or undefined. */
  datatype Uuid = Id(id: string) | OrderIndex(index: int) | Absent

  /** Whether JavaScript treats the value as true. */
  predicate Truthy(u: Uuid) {
    match u
    case Id(s) => s != ""
    case OrderIndex(n) => n != 0
    case Absent => false
  }

  /**
   * A dropdown option as listed; `name` and `optionLabel` are `None` when the
   * property is missing, and a missing `id` reads as "" (both are falsy).
   */
  datatype RawOption = RawOption(name: Option<string>, optionLabel: Option<string>, id: string, orderindex: Option<int>)

  /** A field as listed; `options` is absent when the field has no dropdown options. */
  datatype RawField = RawField(name: string, id: string, fieldType: string, options: Option<seq<RawOption>>)

  /** The options object of a cached field, as its entries in insertion order. */
  type Options = seq<(string, Uuid)>

  datatype Field = Field(id: string, fieldType: string, options: Options)

  /**
   * The key `option.name || option.label`: a missing or empty name gives
   * the label, and a missing label is the value `undefined`, which as a
   * property key is the string "undefined".
   */
  function OptionName(o: RawOption): string {
    if o.name.Some? && o.name.value != "" then o.name.value
    else if o.optionLabel.Some? then o.optionLabel.value
    else "undefined"
  }

  function OptionValue(o: RawOption): Uuid {
    if o.id != "" then Id(o.id)
    else match o.orderindex
      case None => Absent
      case Some(n) => OrderIndex(n)
  }

  function KeyIndex(entries: Options, key: string): Option<nat> {
    FindFirst(entries, (e: (string, Uuid)) => e.0 == key)
  }

  /** `obj[key] = value`: a new key is added at the end, an existing one keeps its place and takes the new value. */
  function Put(entries: Options, key: string, value: Uuid): Options {
    match KeyIndex(entries, key)
    case Some(i) => entries[i := (key, value)]
    case None => entries + [(key, value)]
  }

  ghost predicate DistinctKeys(entries: Options) {
    forall i, j :: 0 <= i < j < |entries| ==> entries[i].0 != entries[j].0
  }

  /** Assignment keeps keys unique, stores the value under its key, and leaves every other entry as it was. */
  lemma PutSpec(entries: Options, key: string, value: Uuid)
    requires DistinctKeys(entries)
    ensures DistinctKeys(Put(entries, key, value))
    ensures (key, value) in Put(entries, key, value)
    ensures forall e :: e in entries && e.0 != key ==> e in Put(entries, key, value)
    ensures forall e :: e in Put(entries, key, value) && e.0 != key ==> e in entries
  {
    var r := Put(entries, key, value);
    match KeyIndex(entries, key)
    case Some(i) =>
      assert r[i] == (key, value);
      forall e | e in entries && e.0 != key ensures e in r {
        var k :| 0 <= k < |entries| && entries[k] == e;
        assert r[k] == e;
      }
    case None =>
      assert r[|entries|] == (key, value);
  }

  /** The options object of one field, filled one option at a time. */
  function OptionsOf(raw: seq<RawOption>): Options
    decreases |raw|
  {
    if raw == [] then []
    else var last := raw[|raw| - 1];
      Put(OptionsOf(raw[..|raw| - 1]), OptionName(last), OptionValue(last))
  }

  /** The cached option names are unique: a repeated name keeps only its last value. */
  lemma {:induction false} OptionsOfDistinct(raw: seq<RawOption>)
    ensures DistinctKeys(OptionsOf(raw))
    decreases |raw|
  {
    if raw != [] {
      var last := raw[|raw| - 1];
      OptionsOfDistinct(raw[..|raw| - 1]);
      PutSpec(OptionsOf(raw[..|raw| - 1]), OptionName(last), OptionValue(last));
    }
  }

  function FieldOf(f: RawField): Field {
    Field(f.id, f.fieldType, if f.options.Some? then OptionsOf(f.options.value) else [])
  }

  /** The cache built from the field list: one entry per field name, the last field of a name winning. */
  function FieldsOf(raw: seq<RawField>): map<string, Field>
    decreases |raw|
  {
    if raw == [] then map[]
    else var last := raw[|raw| - 1];
      FieldsOf(raw[..|raw| - 1])[last.name := FieldOf(last)]
  }

  /** The cache has an entry for every listed field name. */
  lemma {:induction false} EveryFieldCached(raw: seq<RawField>)
    ensures forall k :: 0 <= k < |raw| ==> raw[k].name in FieldsOf(raw)
    decreases |raw|
  {
    if raw != [] {
      var init := raw[..|raw| - 1];
      EveryFieldCached(init);
      assert forall k :: 0 <= k < |init| ==> raw[k] == init[k];
    }
  }

  /** The cache has entries only for listed field names. */
  lemma {:induction false} OnlyListedFieldsCached(raw: seq<RawField>)
    ensures forall name :: name in FieldsOf(raw) ==> exists k :: 0 <= k < |raw| && raw[k].name == name
    decreases |raw|
  {
    if raw != [] {
      var init := raw[..|raw| - 1];
      OnlyListedFieldsCached(init);
      forall name | name in FieldsOf(raw) ensures exists k :: 0 <= k < |raw| && raw[k].name == name {
        if name == raw[|raw| - 1].name {
          assert raw[|raw| - 1].name == name;
        } else {
          assert name in FieldsOf(init);
          var k :| 0 <= k < |init| && init[k].name == name;
          assert raw[k] == init[k];
        }
      }
    }
  }

  /** The cached entry of a name is the last listed field with that name. */
  lemma {:induction false} LastFieldWins(raw: seq<RawField>, k: nat)
    requires k < |raw| && forall j :: k < j < |raw| ==> raw[j].name != raw[k].name
    ensures raw[k].name in FieldsOf(raw) && FieldsOf(raw)[raw[k].name] == FieldOf(raw[k])
    decreases |raw|
  {
    if k < |raw| - 1 {
      var init := raw[..|raw| - 1];
      LastFieldWins(init, k);
    }
  }

  /** The module-level `customFieldsCache`, null until the first successful listing. */
  class FieldCache {
    var cache: Option<map<string, Field>>

    constructor ()
      ensures cache == None
    {
      cache := None;
    }

    /** The options loop of one field. */
    static method FillOptions(raw: seq<RawOption>) returns (options: Options)
      ensures options == OptionsOf(raw)
    {
      options := [];
      var i := 0;
      while i < |raw|
        invariant 0 <= i <= |raw|
        invariant options == OptionsOf(raw[..i])
      {
        assert raw[..i + 1][..i] == raw[..i];
        options := Put(options, OptionName(raw[i]), OptionValue(raw[i]));
        i := i + 1;
      }
      assert raw[..i] == raw;
    }

    /**
     * `getCustomFields`: the cache when it is set, without asking again;
     * otherwise the listing `response`, cached on success and rethrown on
     * failure.
     */
    method GetCustomFields(response: Result<seq<RawField>, string>) returns (r: Result<map<string, Field>, string>)
      modifies this
      ensures old(cache).Some? ==> r == Ok(old(cache).value) && cache == old(cache)
      ensures old(cache).None? && response.Ok? ==> r == Ok(FieldsOf(response.value)) && cache == Some(r.value)
      ensures old(cache).None? && response.Err? ==> r == Err(response.error) && cache == None
    {
      if cache.Some? {
        return Ok(cache.value);
      }
      if response.Err? {
        return Err(response.error);
      }
      var fields := response.value;
      var built: map<string, Field> := map[];
      var i := 0;
      while i < |fields|
        invariant 0 <= i <= |fields|
        invariant built == FieldsOf(fields[..i])
      {
        var f := fields[i];
        var options: Options := [];
        if f.options.Some? {
          options := FillOptions(f.options.value);
        }
        assert fields[..i + 1][..i] == fields[..i];
        built := built[f.name := Field(f.id, f.fieldType, options)];
        i := i + 1;
      }
      assert fields[..i] == fields;
      cache := Some(built);
      r := Ok(built);
    }
  }

  // ---------------------------------------------------------------------
  // Matching a value to an option
  // ---------------------------------------------------------------------

  predicate ExactOption(normalized: string, e: (string, Uuid)) {
    Lower(e.0) == normalized
  }

  predicate PartialOption(normalized: string, e: (string, Uuid)) {
    Contains(normalized, Lower(e.0)) || Contains(Lower(e.0), normalized)
  }

  /**
   * `findOptionUuid`: null for an empty value or no options; otherwise the
   * first option equal to the trimmed value ignoring case, else the first
   * option either containing it or contained in it, else null.
   */
  function FindOptionUuid(value: string, options: Option<Options>): Option<Uuid> {
    if value == "" || options.None? then None
    else
      var normalized := Lower(Trim(value));
      var entries := options.value;
      match FindFirst(entries, (e: (string, Uuid)) => ExactOption(normalized, e))
      case Some(i) => Some(entries[i].1)
      case None =>
        match FindFirst(entries, (e: (string, Uuid)) => PartialOption(normalized, e))
        case Some(i) => Some(entries[i].1)
        case None => None
  }

  /** An empty value or missing options give null. */
  lemma NullForFalsyInput(value: string, options: Option<Options>)
    requires value == "" || options.None?
    ensures FindOptionUuid(value, options) == None
  {
  }

  /** The first exact match wins, whatever partial matches come before it. */
  lemma ExactMatchWins(value: string, entries: Options, i: nat)
    requires value != "" && i < |entries| && ExactOption(Lower(Trim(value)), entries[i])
    requires forall j :: 0 <= j < i ==> !ExactOption(Lower(Trim(value)), entries[j])
    ensures FindOptionUuid(value, Some(entries)) == Some(entries[i].1)
  {
    FindFirstIsFirst(entries, (e: (string, Uuid)) => ExactOption(Lower(Trim(value)), e), i);
  }

  /** Without an exact match, the first option matching partly in either direction wins. */
  lemma FirstPartialWins(value: string, entries: Options, i: nat)
    requires value != "" && i < |entries| && PartialOption(Lower(Trim(value)), entries[i])
    requires forall j :: 0 <= j < |entries| ==> !ExactOption(Lower(Trim(value)), entries[j])
    requires forall j :: 0 <= j < i ==> !PartialOption(Lower(Trim(value)), entries[j])
    ensures FindOptionUuid(value, Some(entries)) == Some(entries[i].1)
  {
    FindFirstIsFirst(entries, (e: (string, Uuid)) => PartialOption(Lower(Trim(value)), e), i);
  }

  /** A non-empty value finds nothing exactly when no option matches even partly. */
  lemma NullIffNoPartialMatch(value: string, entries: Options)
    requires value != ""
    ensures FindOptionUuid(value, Some(entries)) == None <==>
      forall j :: 0 <= j < |entries| ==> !PartialOption(Lower(Trim(value)), entries[j])
  {
    var normalized := Lower(Trim(value));
    forall j | 0 <= j < |entries| && ExactOption(normalized, entries[j])
      ensures PartialOption(normalized, entries[j])
    {
      ContainsSelf(normalized);
    }
  }

  /** A value of white space only matches part of every name, so the first option is taken. */
  lemma BlankValueTakesFirstOption(value: string, entries: Options)
    requires value != "" && Trim(value) == "" && entries != []
    requires forall j :: 0 <= j < |entries| ==> entries[j].0 != ""
    ensures FindOptionUuid(value, Some(entries)) == Some(entries[0].1)
  {
    assert Lower("") == "";
    forall j | 0 <= j < |entries| ensures !ExactOption("", entries[j]) {
      assert |Lower(entries[j].0)| == |entries[j].0| > 0;
    }
    ContainsEmpty(Lower(entries[0].0));
    FirstPartialWins(value, entries, 0);
  }

  // ---------------------------------------------------------------------
  // Creating or updating a task
  // ---------------------------------------------------------------------

  datatype Task = Task(id: string, name: string)

  /** `findExistingTask`: the first task named like the medication ignoring case; null when listing fails. */
  function FindExistingTask(tasks: Result<seq<Task>, string>, taskName: string): (r: Option<Task>)
    ensures r.Some? ==> tasks.Ok? && r.value in tasks.value && Lower(r.value.name) == Lower(taskName)
    ensures tasks.Ok? && r.None? ==> forall k :: 0 <= k < |tasks.value| ==> Lower(tasks.value[k].name) != Lower(taskName)
  {
    match tasks
    case Err(_) => None
    case Ok(ts) =>
      match FindFirst(ts, (t: Task) => Lower(t.name) == Lower(taskName))
      case None => None
      case Some(i) => Some(ts[i])
  }

  /** A custom field value of a new task. */
  datatype FieldValue = FieldValue(fieldId: string, value: Uuid)

  /** The writes `createClickUpTask` makes. */
  datatype TaskWrite =
    | SetField(taskId: string, fieldId: string, value: Uuid)
    | CreateTask(name: string, description: string, customFields: seq<FieldValue>)

  /** The value pushed for one field: only when the field exists and its option value is truthy. */
  function FieldEntry(fields: map<string, Field>, fieldName: string, value: string): (r: seq<FieldValue>)
    ensures |r| <= 1
    ensures |r| == 1 ==> fieldName in fields && r[0].fieldId == fields[fieldName].id && Truthy(r[0].value)
  {
    if fieldName !in fields then []
    else match FindOptionUuid(value, Some(fields[fieldName].options))
      case Some(u) => if Truthy(u) then [FieldValue(fields[fieldName].id, u)] else []
      case None => []
  }

  const AreaField := "Área Terapéutica"
  const CompanyField := "empresa"
  const PhaseField := "Fase"

  /** `custom_fields` of a new task: Área Terapéutica, empresa and Fase, in that order, each when it resolves. */
  function CustomFields(med: Medication, fields: map<string, Field>): seq<FieldValue> {
    FieldEntry(fields, AreaField, med.product.areaTerapeutica)
    + FieldEntry(fields, CompanyField, med.empresa)
    + FieldEntry(fields, PhaseField, med.product.faseCofepris)
  }

  /** At most one value per field, in the fixed field order, each for a field that exists and resolves. */
  lemma CustomFieldsShape(med: Medication, fields: map<string, Field>)
    ensures |CustomFields(med, fields)| <= 3
    ensures forall k :: 0 <= k < |CustomFields(med, fields)| ==> Truthy(CustomFields(med, fields)[k].value)
    ensures CustomFields(med, fields) == [] <==>
      && FieldEntry(fields, AreaField, med.product.areaTerapeutica) == []
      && FieldEntry(fields, CompanyField, med.empresa) == []
      && FieldEntry(fields, PhaseField, med.product.faseCofepris) == []
    ensures FieldEntry(fields, AreaField, med.product.areaTerapeutica) != [] ==>
      CustomFields(med, fields)[0].fieldId == fields[AreaField].id
    ensures FieldEntry(fields, PhaseField, med.product.faseCofepris) != [] ==>
      CustomFields(med, fields)[|CustomFields(med, fields)| - 1].fieldId == fields[PhaseField].id
  {
    ThreeEntries(FieldEntry(fields, AreaField, med.product.areaTerapeutica), FieldEntry(fields, CompanyField, med.empresa),
                 FieldEntry(fields, PhaseField, med.product.faseCofepris));
  }

  lemma ThreeEntries(a: seq<FieldValue>, b: seq<FieldValue>, c: seq<FieldValue>)
    requires |a| <= 1 && |b| <= 1 && |c| <= 1
    requires forall k :: 0 <= k < |a| ==> Truthy(a[k].value)
    requires forall k :: 0 <= k < |b| ==> Truthy(b[k].value)
    requires forall k :: 0 <= k < |c| ==> Truthy(c[k].value)
    ensures |a + b + c| <= 3
    ensures forall k :: 0 <= k < |a + b + c| ==> Truthy((a + b + c)[k].value)
    ensures a + b + c == [] <==> a == [] && b == [] && c == []
    ensures a != [] ==> (a + b + c)[0] == a[0]
    ensures c != [] ==> (a + b + c)[|a + b + c| - 1] == c[0]
  {
    var r := a + b + c;
    assert forall k :: 0 <= k < |a| ==> r[k] == a[k];
    assert forall k :: |a| <= k < |a| + |b| ==> r[k] == b[k - |a|];
    assert forall k :: |a| + |b| <= k < |r| ==> r[k] == c[k - |a| - |b|];
  }

  /** The decision of `createClickUpTask` once the existing task and the fields are known. */
  function TaskDecision(med: Medication, existing: Option<Task>, fields: map<string, Field>): Option<TaskWrite> {
    match existing
    case Some(task) =>
      var fase := FieldEntry(fields, PhaseField, med.product.faseCofepris);
      if fase == [] then None else Some(SetField(task.id, fase[0].fieldId, fase[0].value))
    case None =>
      Some(CreateTask(med.product.molecula, "Medicamento extraído automáticamente del pipeline de " + med.empresa,
                      CustomFields(med, fields)))
  }

  /** An existing task gets at most its phase; a new task is created whenever none exists. */
  lemma ExistingTaskOnlyGetsPhase(med: Medication, existing: Option<Task>, fields: map<string, Field>)
    ensures existing.Some? ==> match TaskDecision(med, existing, fields)
      case None => FieldEntry(fields, PhaseField, med.product.faseCofepris) == []
      case Some(w) => w.SetField? && w.taskId == existing.value.id && PhaseField in fields
                      && w.fieldId == fields[PhaseField].id && Truthy(w.value)
    ensures existing.None? ==> match TaskDecision(med, existing, fields)
      case None => false
      case Some(w) => w.CreateTask? && w.name == med.product.molecula && w.customFields == CustomFields(med, fields)
  {
  }

  /**
   * `createClickUpTask`: look the task up, get the fields (a failure ends
   * in `false`), then make the decided write; `accepted` says whether the
   * API took it. Nothing to write is a success.
   */
  method CreateClickUpTask(cache: FieldCache, med: Medication, tasks: Result<seq<Task>, string>,
                           fieldsResponse: Result<seq<RawField>, string>, accepted: TaskWrite -> bool)
    returns (ok: bool, write: Option<TaskWrite>)
    modifies cache
    ensures old(cache.cache).None? && fieldsResponse.Err? ==> !ok && write.None? && cache.cache == None
    ensures old(cache.cache).Some? ==> cache.cache == old(cache.cache)
    ensures old(cache.cache).None? && fieldsResponse.Ok? ==> cache.cache == Some(FieldsOf(fieldsResponse.value))
    ensures cache.cache.Some? ==> write == TaskDecision(med, FindExistingTask(tasks, med.product.molecula), cache.cache.value)
    ensures ok <==> cache.cache.Some? && (write.None? || accepted(write.value))
    ensures cache.cache == CallFields(old(cache.cache), fieldsResponse)
  {
    var existing := FindExistingTask(tasks, med.product.molecula);
    var customFields := cache.GetCustomFields(fieldsResponse);
    if customFields.Err? {
      return false, None;
    }
    var fields := customFields.value;
    if existing.Some? {
      var fase := FieldEntry(fields, PhaseField, med.product.faseCofepris);
      write := if fase == [] then None else Some(SetField(existing.value.id, fase[0].fieldId, fase[0].value));
    } else {
      var custom := FieldEntry(fields, AreaField, med.product.areaTerapeutica);
      custom := custom + FieldEntry(fields, CompanyField, med.empresa);
      custom := custom + FieldEntry(fields, PhaseField, med.product.faseCofepris);
      assert custom == CustomFields(med, fields);
      write := Some(CreateTask(med.product.molecula, "Medicamento extraído automáticamente del pipeline de " + med.empresa, custom));
    }
    ok := write.None? || accepted(write.value);
  }

  /** The fields one call works with: the cache when it is set, else the listing when it succeeds. */
  function CallFields(cached: Option<map<string, Field>>, response: Result<seq<RawField>, string>)
    : (f: Option<map<string, Field>>)
    ensures cached.Some? ==> f == cached
    ensures cached.None? ==> (f.Some? <==> response.Ok?)
  {
    if cached.Some? then cached else if response.Ok? then Some(FieldsOf(response.value)) else None
  }

  /**
   * The cache after a run of calls, each given its own listing answer: a
   * failed listing leaves the cache unset, so the next call lists again.
   */
  function CacheAfter(cached: Option<map<string, Field>>, answers: seq<Result<seq<RawField>, string>>)
    : (c: Option<map<string, Field>>)
    ensures cached.Some? ==> c == cached
    decreases |answers|
  {
    if answers == [] then cached
    else CallFields(CacheAfter(cached, answers[..|answers| - 1]), answers[|answers| - 1])
  }

  predicate Listed(answer: Result<seq<RawField>, string>) {
    answer.Ok?
  }

  /** From an unset cache, the first successful listing fills it; with none, it stays unset. */
  lemma {:induction false} FirstListingFills(answers: seq<Result<seq<RawField>, string>>)
    ensures CacheAfter(None, answers) == match FindFirst(answers, Listed)
      case None => None
      case Some(j) => Some(FieldsOf(answers[j].value))
    decreases |answers|
  {
    if answers != [] {
      var init := answers[..|answers| - 1];
      FirstListingFills(init);
      match FindFirst(init, Listed) {
        case Some(j) =>
          assert forall k :: 0 <= k < j ==> init[k] == answers[k];
          FindFirstIsFirst(answers, Listed, j);
        case None =>
          assert forall k :: 0 <= k < |init| ==> init[k] == answers[k] && !Listed(answers[k]);
          if Listed(answers[|answers| - 1]) {
            FindFirstIsFirst(answers, Listed, |answers| - 1);
          }
      }
    }
  }

  /** Once a listing has filled the cache, the later answers are never used. */
  lemma {:induction false} LaterListingsIgnored(cached: Option<map<string, Field>>,
                                                answers: seq<Result<seq<RawField>, string>>, i: nat)
    requires i <= |answers| && CacheAfter(cached, answers[..i]).Some?
    ensures CacheAfter(cached, answers) == CacheAfter(cached, answers[..i])
    decreases |answers| - i
  {
    if i < |answers| {
      var init := answers[..|answers| - 1];
      assert init[..i] == answers[..i];
      LaterListingsIgnored(cached, init, i);
    } else {
      assert answers[..i] == answers;
    }
  }

  /** The fields the call at index `k` of a run works with: the cache once its own answer is in. */
  function FieldsAt(cached: Option<map<string, Field>>, answers: seq<Result<seq<RawField>, string>>, k: nat)
    : Option<map<string, Field>>
    requires k < |answers|
  {
    CacheAfter(cached, answers[..k + 1])
  }

  lemma FieldsAtPrefix(cached: Option<map<string, Field>>, answers: seq<Result<seq<RawField>, string>>, m: nat, k: nat)
    requires k < m <= |answers|
    ensures FieldsAt(cached, answers[..m], k) == FieldsAt(cached, answers, k)
  {
    assert answers[..m][..k + 1] == answers[..k + 1];
  }

  /** The write decided for one medication of a batch: nothing without the fields. */
  function BatchWrite(med: Medication, tasks: Result<seq<Task>, string>, fields: Option<map<string, Field>>)
    : Option<TaskWrite>
  {
    if fields.None? then None else TaskDecision(med, FindExistingTask(tasks, med.product.molecula), fields.value)
  }

  /** The writes of a batch, in order: each medication decided with the fields its own call works with. */
  function BatchWrites(meds: seq<Medication>, tasks: Result<seq<Task>, string>, cached: Option<map<string, Field>>,
                       answers: seq<Result<seq<RawField>, string>>)
    : (ws: seq<Option<TaskWrite>>)
    requires |answers| == |meds|
    ensures |ws| == |meds|
    ensures forall i :: 0 <= i < |meds| ==> ws[i] == BatchWrite(meds[i], tasks, FieldsAt(cached, answers, i))
  {
    seq(|meds|, i requires 0 <= i < |meds| => BatchWrite(meds[i], tasks, FieldsAt(cached, answers, i)))
  }

  /** Whether one medication counts as created: the fields were there and the write, if any, was accepted. */
  predicate TaskOk(fields: Option<map<string, Field>>, write: Option<TaskWrite>, accepted: TaskWrite -> bool) {
    fields.Some? && (write.None? || accepted(write.value))
  }

  /** How many of the writes of a batch count as created, each judged with the fields of its own call. */
  function Created(cached: Option<map<string, Field>>, answers: seq<Result<seq<RawField>, string>>,
                   writes: seq<Option<TaskWrite>>, accepted: TaskWrite -> bool)
    : (n: nat)
    requires |answers| == |writes|
    ensures n <= |writes|
    ensures CacheAfter(cached, answers).None? ==> n == 0
    ensures (forall k :: 0 <= k < |writes| ==> TaskOk(FieldsAt(cached, answers, k), writes[k], accepted))
      ==> n == |writes|
    decreases |writes|
  {
    if writes == [] then 0
    else
      var m := |writes| - 1;
      assert forall k :: 0 <= k < m ==> FieldsAt(cached, answers[..m], k) == FieldsAt(cached, answers, k) by {
        forall k | 0 <= k < m {
          FieldsAtPrefix(cached, answers, m, k);
        }
      }
      assert answers[..m + 1] == answers;
      Created(cached, answers[..m], writes[..m], accepted) + (if TaskOk(CacheAfter(cached, answers), writes[m], accepted) then 1 else 0)
  }

  /** One more medication of the batch: its write is appended and counted. */
  lemma BatchStep(meds: seq<Medication>, answers: seq<Result<seq<RawField>, string>>, i: nat,
                  tasks: Result<seq<Task>, string>, cached: Option<map<string, Field>>,
                  writes: seq<Option<TaskWrite>>, write: Option<TaskWrite>, accepted: TaskWrite -> bool)
    requires i < |meds| == |answers| && writes == BatchWrites(meds[..i], tasks, cached, answers[..i])
    requires write == BatchWrite(meds[i], tasks, FieldsAt(cached, answers, i))
    ensures writes + [write] == BatchWrites(meds[..i + 1], tasks, cached, answers[..i + 1])
    ensures Created(cached, answers[..i + 1], writes + [write], accepted)
      == Created(cached, answers[..i], writes, accepted)
         + (if TaskOk(CacheAfter(cached, answers[..i + 1]), write, accepted) then 1 else 0)
  {
    assert (writes + [write])[..i] == writes;
    assert answers[..i + 1][..i] == answers[..i];
    var ws := BatchWrites(meds[..i + 1], tasks, cached, answers[..i + 1]);
    forall k | 0 <= k < i + 1
      ensures ws[k] == (writes + [write])[k]
    {
      FieldsAtPrefix(cached, answers, i + 1, k);
      if k < i {
        FieldsAtPrefix(cached, answers, i, k);
      }
    }
  }

  /**
   * `createClickUpTasks`: one attempt per medication, counted as created
   * or failed; `writes` are the writes decided, in order. Each attempt gets
   * its own answer to the field listing, used only while the cache is
   * unset; the task listing is one answer for the whole batch.
   */
  method CreateClickUpTasks(cache: FieldCache, medications: seq<Medication>, tasks: Result<seq<Task>, string>,
                            answers: seq<Result<seq<RawField>, string>>, accepted: TaskWrite -> bool)
    returns (success: nat, failed: nat, writes: seq<Option<TaskWrite>>)
    requires |answers| == |medications|
    modifies cache
    ensures writes == BatchWrites(medications, tasks, old(cache.cache), answers)
    ensures success == Created(old(cache.cache), answers, writes, accepted)
    ensures success + failed == |medications|
    ensures cache.cache == CacheAfter(old(cache.cache), answers)
    ensures old(cache.cache).None? && (forall k :: 0 <= k < |answers| ==> answers[k].Err?) ==>
      success == 0 && cache.cache == None
  {
    ghost var cached := cache.cache;
    success, failed, writes := 0, 0, [];
    var i := 0;
    while i < |medications|
      invariant 0 <= i <= |medications|
      invariant success + failed == i && |writes| == i
      invariant cache.cache == CacheAfter(cached, answers[..i])
      invariant writes == BatchWrites(medications[..i], tasks, cached, answers[..i])
      invariant success == Created(cached, answers[..i], writes, accepted)
    {
      var result, write := CreateClickUpTask(cache, medications[i], tasks, answers[i], accepted);
      assert answers[..i + 1][..i] == answers[..i];
      assert cache.cache == CacheAfter(cached, answers[..i + 1]);
      assert write == BatchWrite(medications[i], tasks, cache.cache);
      assert result == TaskOk(cache.cache, write, accepted);
      BatchStep(medications, answers, i, tasks, cached, writes, write, accepted);
      writes := writes + [write];
      if result {
        success := success + 1;
      } else {
        failed := failed + 1;
      }
      i := i + 1;
    }
    assert medications[..i] == medications && answers[..i] == answers;
    if cached.None? && forall k :: 0 <= k < |answers| ==> answers[k].Err? {
      FirstListingFills(answers);
    }
  }
}
