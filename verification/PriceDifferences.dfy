/** The comparison of local prices with those of several channels: every pass of `buildDifferences`. */
module PriceDifferences {
  import opened Wrappers
  import opened PriceSelection

  datatype Field =
    | ModelRatio | CompletionRatio | CacheRatio | CreateCacheRatio | ImageRatio | AudioRatio
    | AudioCompletionRatio | ModelPrice | BillingMode | BillingExpr

  const FIELDS: seq<Field> :=
    [ModelRatio, CompletionRatio, CacheRatio, CreateCacheRatio, ImageRatio, AudioRatio,
     AudioCompletionRatio, ModelPrice, BillingMode, BillingExpr]

  /** A decoded JSON value; `Null` is also Go's `nil`. */
  datatype Val = Num(number: real) | Str(text: string) | Null

  const SAME := Str("same")

  type Table = map<Field, map<string, Val>>

  datatype Channel = Channel(name: string, data: Table)

  datatype Item = Item(current: Val, upstreams: map<string, Val>, confidence: map<string, bool>)

  type Report = map<string, map<Field, Item>>

  predicate ValuesEqual(a: Val, b: Val) {
    if a.Num? && b.Num? then NearlyEqual(a.number, b.number) else a == b
  }

  /** The column of a table, empty when it is missing. */
  function Column(data: Table, field: Field): map<string, Val> {
    if field in data then data[field] else map[]
  }

  predicate Present(data: Table, field: Field, model: string) {
    model in Column(data, field)
  }

  function Value(data: Table, field: Field, model: string): Val {
    if Present(data, field, model) then Column(data, field)[model] else Null
  }

  // ---------------------------------------------------------------- one model and field

  /** What one channel's entry in an item becomes. */
  function UpstreamCell(local: Val, data: Table, field: Field, model: string): Val {
    var v := Value(data, field, model);
    var marked := if Present(data, field, model) && ValuesEqual(local, v) then SAME else v;
    if marked == Null && local == Null then SAME else marked
  }

  /** Whether one channel's entry makes the item different. */
  predicate CellDiffers(local: Val, data: Table, field: Field, model: string) {
    || (Present(data, field, model) && local != Null && !ValuesEqual(local, Value(data, field, model)))
    || (local == Null && UpstreamCell(local, data, field, model) !in {Null, SAME})
  }

  /** A ratio of 37.5 with a completion ratio of 1 is what an unset price looks like. */
  predicate Trusted(data: Table, model: string) {
    var a, b := Value(data, ModelRatio, model), Value(data, CompletionRatio, model);
    !(a.Num? && b.Num? && NearlyEqual(a.number, 37.5) && NearlyEqual(b.number, 1.0))
  }

  /** What walking over the channels gathers for one model and field. */
  datatype Gathered = Gathered(upstreams: map<string, Val>, trust: map<string, bool>, present: bool, differs: bool)

  function Gather(channels: seq<Channel>, local: Val, field: Field, model: string): Gathered {
    if channels == [] then Gathered(map[], map[], false, false)
    else
      var g, last := Gather(channels[..|channels| - 1], local, field, model), channels[|channels| - 1];
      Gathered(
        g.upstreams[last.name := UpstreamCell(local, last.data, field, model)],
        g.trust[last.name := Trusted(last.data, model)],
        g.present || Present(last.data, field, model),
        g.differs || CellDiffers(local, last.data, field, model))
  }

  predicate Included(local: Table, channels: seq<Channel>, model: string, field: Field) {
    var current := Value(local, field, model);
    var g := Gather(channels, current, field, model);
    if current != Null then g.differs else g.present
  }

  function ItemFor(local: Table, channels: seq<Channel>, model: string, field: Field): Item {
    var current := Value(local, field, model);
    var g := Gather(channels, current, field, model);
    Item(current, g.upstreams, g.trust)
  }

  predicate JudgedFor(c: Channel, confidence: map<string, map<string, bool>>, model: string) {
    && c.name in confidence && model in confidence[c.name]
    && confidence[c.name][model] == Trusted(c.data, model)
  }

  /** The loop over the channels for one model and one field. */
  method CompareOne(local: Table, channels: seq<Channel>, confidence: map<string, map<string, bool>>, model: string,
                    field: Field)
    returns (item: Item, wanted: bool)
    requires forall i :: 0 <= i < |channels| ==> JudgedFor(channels[i], confidence, model)
    ensures item == ItemFor(local, channels, model, field)
    ensures wanted == Included(local, channels, model, field)
  {
    var current := Value(local, field, model);
    var g := Gathered(map[], map[], false, false);
    for i := 0 to |channels|
      invariant g == Gather(channels[..i], current, field, model)
    {
      assert channels[..i + 1][..i] == channels[..i];
      var name := channels[i].name;
      var value, present, differs := CompareCell(current, channels[i].data, field, model);
      assert JudgedFor(channels[i], confidence, model);
      g := Gathered(g.upstreams[name := value], g.trust[name := confidence[name][model]],
                    g.present || present, g.differs || differs);
    }
    assert channels[..|channels|] == channels;
    item := Item(current, g.upstreams, g.trust);
    wanted := if current != Null then g.differs else g.present;
  }

  method CompareCell(current: Val, data: Table, field: Field, model: string)
    returns (value: Val, present: bool, differs: bool)
    ensures value == UpstreamCell(current, data, field, model)
    ensures present == Present(data, field, model)
    ensures differs == CellDiffers(current, data, field, model)
  {
    value, present, differs := Null, false, false;
    if model in Column(data, field) {
      value := Column(data, field)[model];
      present := true;
      if current != Null && !ValuesEqual(current, value) {
        differs := true;
      } else if ValuesEqual(current, value) {
        value := SAME;
      }
    }
    if value == Null && current == Null {
      value := SAME;
    }
    if current == Null && value != Null && value != SAME {
      differs := true;
    }
  }

  // ---------------------------------------------------------------- the passes

  ghost predicate Listed(local: Table, channels: seq<Channel>, model: string) {
    || (exists f :: Present(local, f, model))
    || (exists c, f :: c in channels && Present(c.data, f, model))
  }

  lemma EveryField(f: Field)
    ensures exists i :: 0 <= i < |FIELDS| && FIELDS[i] == f
  {
    assert FIELDS[0] == ModelRatio && FIELDS[1] == CompletionRatio && FIELDS[2] == CacheRatio;
    assert FIELDS[3] == CreateCacheRatio && FIELDS[4] == ImageRatio && FIELDS[5] == AudioRatio;
    assert FIELDS[6] == AudioCompletionRatio && FIELDS[7] == ModelPrice && FIELDS[8] == BillingMode;
    assert FIELDS[9] == BillingExpr;
  }

  method ModelsIn(data: Table) returns (models: set<string>)
    ensures forall m :: m in models <==> exists f :: Present(data, f, m)
  {
    models := {};
    for i := 0 to |FIELDS|
      invariant forall m :: m in models <==> exists j :: 0 <= j < i && Present(data, FIELDS[j], m)
    {
      models := models + Column(data, FIELDS[i]).Keys;
    }
    forall m
      ensures m in models <==> exists f :: Present(data, f, m)
    {
      if f :| Present(data, f, m) {
        EveryField(f);
      }
    }
  }

  method CollectModels(local: Table, channels: seq<Channel>) returns (models: set<string>)
    ensures forall m :: m in models <==> Listed(local, channels, m)
  {
    models := ModelsIn(local);
    for i := 0 to |channels|
      invariant forall m :: m in models <==> Listed(local, channels[..i], m)
    {
      var more := ModelsIn(channels[i].data);
      models := models + more;
      assert channels[..i + 1] == channels[..i] + [channels[i]];
    }
    assert channels[..|channels|] == channels;
  }

  method JudgeChannel(data: Table, models: set<string>) returns (trust: map<string, bool>)
    ensures trust.Keys == models
    ensures forall m :: m in models ==> trust[m] == Trusted(data, m)
  {
    trust := map[];
    var ratios, completions := Column(data, ModelRatio), Column(data, CompletionRatio);
    var rest := models;
    while rest != {}
      invariant rest <= models && trust.Keys == models - rest
      invariant forall m :: m in trust ==> trust[m] == Trusted(data, m)
      decreases |rest|
    {
      var m :| m in rest;
      rest := rest - {m};
      trust := trust[m := true];
      if |ratios| > 0 && |completions| > 0 && m in ratios && m in completions {
        var a, b := ratios[m], completions[m];
        if a.Num? && b.Num? && NearlyEqual(a.number, 37.5) && NearlyEqual(b.number, 1.0) {
          trust := trust[m := false];
        }
      }
    }
  }

  ghost predicate UniqueNames(channels: seq<Channel>) {
    forall i, j :: 0 <= i < j < |channels| ==> channels[i].name != channels[j].name
  }

  ghost predicate Judged(channels: seq<Channel>, models: set<string>, confidence: map<string, map<string, bool>>) {
    forall c :: c in channels ==> && c.name in confidence && confidence[c.name].Keys == models
                                  && forall m :: m in models ==> confidence[c.name][m] == Trusted(c.data, m)
  }

  method Judge(channels: seq<Channel>, models: set<string>) returns (confidence: map<string, map<string, bool>>)
    requires UniqueNames(channels)
    ensures Judged(channels, models, confidence)
  {
    confidence := map[];
    for i := 0 to |channels|
      invariant Judged(channels[..i], models, confidence)
    {
      var trust := JudgeChannel(channels[i].data, models);
      confidence := confidence[channels[i].name := trust];
      assert channels[..i + 1] == channels[..i] + [channels[i]];
    }
    assert channels[..|channels|] == channels;
  }

  method CompareModel(local: Table, channels: seq<Channel>, models: set<string>,
                      confidence: map<string, map<string, bool>>, model: string)
    returns (row: map<Field, Item>)
    requires model in models && Judged(channels, models, confidence)
    ensures forall f :: f in row <==> Included(local, channels, model, f)
    ensures forall f :: f in row ==> row[f] == ItemFor(local, channels, model, f)
  {
    row := map[];
    assert forall i :: 0 <= i < |channels| ==> channels[i] in channels;
    for i := 0 to |FIELDS|
      invariant forall f :: f in row <==> f in FIELDS[..i] && Included(local, channels, model, f)
      invariant forall f :: f in row ==> row[f] == ItemFor(local, channels, model, f)
    {
      var item, wanted := CompareOne(local, channels, confidence, model, FIELDS[i]);
      if wanted {
        row := row[FIELDS[i] := item];
      }
      assert FIELDS[..i + 1] == FIELDS[..i] + [FIELDS[i]];
    }
    assert FIELDS[..|FIELDS|] == FIELDS;
    forall f
      ensures f in FIELDS
    {
      EveryField(f);
    }
  }

  /** Row by row: models with nothing to report have no row. */
  ghost predicate RowsAre(report: Report, models: set<string>, local: Table, channels: seq<Channel>) {
    && (forall m :: m in report ==> m in models && report[m] != map[])
    && (forall m, f :: m in models ==> (m in report && f in report[m] <==> Included(local, channels, m, f)))
    && (forall m, f :: m in report && f in report[m] ==> report[m][f] == ItemFor(local, channels, m, f))
  }

  method CompareAll(local: Table, channels: seq<Channel>, models: set<string>,
                    confidence: map<string, map<string, bool>>)
    returns (report: Report)
    requires Judged(channels, models, confidence)
    ensures RowsAre(report, models, local, channels)
  {
    report := map[];
    var rest := models;
    while rest != {}
      invariant rest <= models
      invariant RowsAre(report, models - rest, local, channels)
      decreases |rest|
    {
      var m :| m in rest;
      rest := rest - {m};
      var row := CompareModel(local, channels, models, confidence, m);
      if row != map[] {
        report := report[m := row];
      }
    }
    assert models - rest == models;
  }

  predicate Informative(v: Val) {
    v != Null && v != SAME
  }

  ghost predicate RowTells(row: map<Field, Item>, name: string) {
    exists f :: f in row && name in row[f].upstreams && Informative(row[f].upstreams[name])
  }

  ghost predicate ReportTells(report: Report, name: string) {
    exists m :: m in report && RowTells(report[m], name)
  }

  method NamesInItem(item: Item) returns (names: set<string>)
    ensures forall n :: n in names <==> n in item.upstreams && Informative(item.upstreams[n])
  {
    names := {};
    var rest := item.upstreams.Keys;
    while rest != {}
      invariant rest <= item.upstreams.Keys
      invariant forall n :: n in names <==> n in item.upstreams.Keys - rest && Informative(item.upstreams[n])
      decreases |rest|
    {
      var n :| n in rest;
      rest := rest - {n};
      if item.upstreams[n] != Null && item.upstreams[n] != SAME {
        names := names + {n};
      }
    }
  }

  method NamesInRow(row: map<Field, Item>) returns (names: set<string>)
    ensures forall n :: n in names <==> RowTells(row, n)
  {
    names := {};
    var rest := row.Keys;
    while rest != {}
      invariant rest <= row.Keys
      invariant forall n :: n in names <==>
                  exists f :: f in row.Keys - rest && n in row[f].upstreams && Informative(row[f].upstreams[n])
      decreases |rest|
    {
      var f :| f in rest;
      rest := rest - {f};
      var more := NamesInItem(row[f]);
      names := names + more;
    }
  }

  /** The channels with something to tell anywhere in the report. */
  method ChannelsWithDifference(report: Report) returns (names: set<string>)
    ensures forall n :: n in names <==> ReportTells(report, n)
  {
    names := {};
    var rest := report.Keys;
    while rest != {}
      invariant rest <= report.Keys
      invariant forall n :: n in names <==> exists m :: m in report.Keys - rest && RowTells(report[m], n)
      decreases |rest|
    {
      var m :| m in rest;
      rest := rest - {m};
      var more := NamesInRow(report[m]);
      names := names + more;
    }
  }

  function Only<T>(m: map<string, T>, names: set<string>): map<string, T> {
    map k | k in m && k in names :: m[k]
  }

  function PrunedItem(item: Item, names: set<string>): Item {
    Item(item.current, Only(item.upstreams, names), Only(item.confidence, names))
  }

  predicate Survives(item: Item, names: set<string>) {
    AnyLeft(Only(item.upstreams, names))
  }

  ghost predicate Paired(item: Item) {
    item.confidence.Keys == item.upstreams.Keys
  }

  method PruneItem(item: Item, names: set<string>) returns (pruned: Item, keep: bool)
    requires Paired(item)
    ensures pruned == PrunedItem(item, names) && keep == Survives(item, names)
  {
    var upstreams, confidence := item.upstreams, item.confidence;
    var rest := item.upstreams.Keys;
    while rest != {}
      invariant rest <= item.upstreams.Keys
      invariant upstreams == Only(item.upstreams, rest + names) && confidence == Only(item.confidence, rest + names)
      decreases |rest|
    {
      var k :| k in rest;
      rest := rest - {k};
      if k !in names {
        upstreams, confidence := upstreams - {k}, confidence - {k};
      }
    }
    assert rest + names == names;
    pruned := Item(item.current, upstreams, confidence);
    keep := AnyLeft(upstreams);
  }

  predicate AnyLeft(upstreams: map<string, Val>) {
    exists k :: k in upstreams && upstreams[k] != SAME
  }

  function PrunedRow(row: map<Field, Item>, names: set<string>): map<Field, Item> {
    map f | f in row && Survives(row[f], names) :: PrunedItem(row[f], names)
  }

  method PruneRow(row: map<Field, Item>, names: set<string>) returns (pruned: map<Field, Item>)
    requires forall f :: f in row ==> Paired(row[f])
    ensures pruned == PrunedRow(row, names)
  {
    pruned := row;
    var rest := row.Keys;
    while rest != {}
      invariant rest <= row.Keys
      invariant forall f :: f in pruned <==> f in row && (f in rest || Survives(row[f], names))
      invariant forall f :: f in pruned ==> pruned[f] == if f in rest then row[f] else PrunedItem(row[f], names)
      decreases |rest|
    {
      var f :| f in rest;
      rest := rest - {f};
      var item, keep := PruneItem(row[f], names);
      if keep {
        pruned := pruned[f := item];
      } else {
        pruned := pruned - {f};
      }
    }
  }

  /** The surviving items, cut down to the named channels; models without any have no row. */
  function PrunedReport(report: Report, names: set<string>): Report {
    map m | m in report && PrunedRow(report[m], names) != map[] :: PrunedRow(report[m], names)
  }

  method Prune(report: Report, names: set<string>) returns (pruned: Report)
    requires forall m, f :: m in report && f in report[m] ==> Paired(report[m][f])
    ensures pruned == PrunedReport(report, names)
  {
    pruned := report;
    var rest := report.Keys;
    while rest != {}
      invariant rest <= report.Keys
      invariant forall m :: m in pruned <==> m in report && (m in rest || PrunedRow(report[m], names) != map[])
      invariant forall m :: m in pruned ==> pruned[m] == if m in rest then report[m] else PrunedRow(report[m], names)
      decreases |rest|
    {
      var m :| m in rest;
      rest := rest - {m};
      var row := PruneRow(report[m], names);
      if row == map[] {
        pruned := pruned - {m};
      } else {
        pruned := pruned[m := row];
      }
    }
  }

  lemma {:induction false} GatherIsPaired(channels: seq<Channel>, local: Val, field: Field, model: string)
    ensures var g := Gather(channels, local, field, model); g.trust.Keys == g.upstreams.Keys
  {
    if channels != [] {
      GatherIsPaired(channels[..|channels| - 1], local, field, model);
    }
  }

  // ---------------------------------------------------------------- the whole comparison

  /** The channel says something about some included item. */
  ghost predicate Tells(local: Table, channels: seq<Channel>, name: string) {
    exists m, f :: Included(local, channels, m, f) && ItemTells(ItemFor(local, channels, m, f), name)
  }

  predicate ItemTells(item: Item, name: string) {
    name in item.upstreams && Informative(item.upstreams[name])
  }

  ghost predicate Reported(local: Table, channels: seq<Channel>, model: string, field: Field) {
    && Included(local, channels, model, field)
    && exists n :: n in ItemFor(local, channels, model, field).upstreams && Tells(local, channels, n)
                   && ItemFor(local, channels, model, field).upstreams[n] != SAME
  }

  /** The item of the report: the gathered one, for the channels that tell something somewhere. */
  ghost predicate IsCut(item: Item, whole: Item, local: Table, channels: seq<Channel>) {
    && item.current == whole.current
    && (forall n :: n in item.upstreams <==> n in whole.upstreams && Tells(local, channels, n))
    && (forall n :: n in item.confidence <==> n in whole.confidence && Tells(local, channels, n))
    && (forall n :: n in item.upstreams ==> item.upstreams[n] == whole.upstreams[n])
    && (forall n :: n in item.confidence ==> item.confidence[n] == whole.confidence[n])
  }

  method BuildDifferences(local: Table, channels: seq<Channel>) returns (report: Report)
    requires UniqueNames(channels)
    ensures forall m :: m in report ==> report[m] != map[]
    ensures forall m, f :: m in report && f in report[m] <==> Reported(local, channels, m, f)
    ensures forall m, f :: m in report && f in report[m] ==>
              IsCut(report[m][f], ItemFor(local, channels, m, f), local, channels)
  {
    var models := CollectModels(local, channels);
    var confidence := Judge(channels, models);
    var differences := CompareAll(local, channels, models, confidence);
    var names := ChannelsWithDifference(differences);
    RowsArePaired(differences, models, local, channels);
    report := Prune(differences, names);
    NamesTell(local, channels, models, differences, names);
    PrunedIsReported(local, channels, models, differences, names);
  }

  lemma RowsArePaired(differences: Report, models: set<string>, local: Table, channels: seq<Channel>)
    requires RowsAre(differences, models, local, channels)
    ensures forall m, f :: m in differences && f in differences[m] ==> Paired(differences[m][f])
  {
    forall m, f | m in differences && f in differences[m]
      ensures Paired(differences[m][f])
    {
      GatherIsPaired(channels, Value(local, f, m), f, m);
    }
  }

  lemma PrunedIsReported(local: Table, channels: seq<Channel>, models: set<string>, differences: Report,
                         names: set<string>)
    requires forall m :: m in models <==> Listed(local, channels, m)
    requires RowsAre(differences, models, local, channels)
    requires forall n :: n in names <==> Tells(local, channels, n)
    ensures var report := PrunedReport(differences, names);
            && (forall m, f :: m in report && f in report[m] <==> Reported(local, channels, m, f))
            && (forall m, f :: m in report && f in report[m] ==>
                  IsCut(report[m][f], ItemFor(local, channels, m, f), local, channels))
  {
    var report := PrunedReport(differences, names);
    forall m, f
      ensures m in report && f in report[m] <==> Reported(local, channels, m, f)
      ensures m in report && f in report[m] ==> IsCut(report[m][f], ItemFor(local, channels, m, f), local, channels)
    {
      ReportedRow(local, channels, models, differences, names, m, f);
    }
  }

  lemma {:induction false} IncludedIsPresent(channels: seq<Channel>, local: Val, field: Field, model: string)
    ensures var g := Gather(channels, local, field, model);
            g.present || g.differs ==> exists c :: c in channels && Present(c.data, field, model)
  {
    if channels != [] {
      var front, last := channels[..|channels| - 1], channels[|channels| - 1];
      IncludedIsPresent(front, local, field, model);
      assert channels == front + [last];
    }
  }

  lemma IncludedIsListed(local: Table, channels: seq<Channel>, model: string, field: Field)
    requires Included(local, channels, model, field)
    ensures Listed(local, channels, model)
  {
    IncludedIsPresent(channels, Value(local, field, model), field, model);
  }

  lemma NamesTell(local: Table, channels: seq<Channel>, models: set<string>, differences: Report, names: set<string>)
    requires forall m :: m in models <==> Listed(local, channels, m)
    requires RowsAre(differences, models, local, channels)
    requires forall n :: n in names <==> ReportTells(differences, n)
    ensures forall n :: n in names <==> Tells(local, channels, n)
  {
    forall n
      ensures ReportTells(differences, n) <==> Tells(local, channels, n)
    {
      if Tells(local, channels, n) {
        var m, f :| Included(local, channels, m, f) && ItemTells(ItemFor(local, channels, m, f), n);
        IncludedIsListed(local, channels, m, f);
        assert m in differences && f in differences[m];
        assert RowTells(differences[m], n);
      }
      if ReportTells(differences, n) {
        var m :| m in differences && RowTells(differences[m], n);
        var f :| f in differences[m] && n in differences[m][f].upstreams && Informative(differences[m][f].upstreams[n]);
        assert ItemTells(ItemFor(local, channels, m, f), n);
      }
    }
  }

  lemma ReportedRow(local: Table, channels: seq<Channel>, models: set<string>, differences: Report,
                    names: set<string>, m: string, f: Field)
    requires forall m :: m in models <==> Listed(local, channels, m)
    requires RowsAre(differences, models, local, channels)
    requires forall n :: n in names <==> Tells(local, channels, n)
    ensures var report := PrunedReport(differences, names);
            && (m in report && f in report[m] <==> Reported(local, channels, m, f))
            && (m in report && f in report[m] ==>
                  IsCut(report[m][f], ItemFor(local, channels, m, f), local, channels))
  {
    CutItem(ItemFor(local, channels, m, f), names, local, channels);
    if Included(local, channels, m, f) {
      IncludedIsListed(local, channels, m, f);
      assert m in differences && f in differences[m];
    }
    PrunedHas(differences, names, m, f);
  }

  lemma PrunedHas(differences: Report, names: set<string>, m: string, f: Field)
    ensures var report := PrunedReport(differences, names);
            && (m in report && f in report[m] <==>
                  m in differences && f in differences[m] && Survives(differences[m][f], names))
            && (m in report && f in report[m] ==> report[m][f] == PrunedItem(differences[m][f], names))
  {
    if m in differences && f in differences[m] && Survives(differences[m][f], names) {
      assert f in PrunedRow(differences[m], names);
    }
  }

  lemma CutItem(item: Item, names: set<string>, local: Table, channels: seq<Channel>)
    requires forall n :: n in names <==> Tells(local, channels, n)
    ensures IsCut(PrunedItem(item, names), item, local, channels)
    ensures Survives(item, names) <==>
            exists n :: n in item.upstreams && Tells(local, channels, n) && item.upstreams[n] != SAME
  {
    SurvivesIff(item, names);
  }

  lemma SurvivesIff(item: Item, names: set<string>)
    ensures Survives(item, names) <==> exists n :: n in item.upstreams && n in names && item.upstreams[n] != SAME
  {
    if n :| n in item.upstreams && n in names && item.upstreams[n] != SAME {
      assert Only(item.upstreams, names)[n] != SAME;
    }
  }

  // ---------------------------------------------------------------- what is reported

  /** Two values differ: texts that are not the same, numbers at least 0.000000001 apart, a text and a number. */
  ghost predicate Apart(a: Val, b: Val) {
    match (a, b)
    case (Num(x), Num(y)) => x - y >= 0.000000001 || y - x >= 0.000000001
    case (Str(x), Str(y)) => x != y
    case (Null, Null) => false
    case _ => true
  }

  /** The channel prices the model differently, or prices one that has no local price. */
  ghost predicate Differs(local: Table, c: Channel, model: string, field: Field) {
    && field in c.data && model in c.data[field]
    && (field in local && model in local[field] ==> Apart(local[field][model], c.data[field][model]))
  }

  /** No JSON nulls and no value spelled like the marker for equal values. */
  ghost predicate Clean(data: Table) {
    forall f, m :: Present(data, f, m) ==> Informative(Value(data, f, m))
  }

  ghost predicate AllClean(local: Table, channels: seq<Channel>) {
    Clean(local) && forall c :: c in channels ==> Clean(c.data)
  }

  lemma CleanCell(local: Table, c: Channel, m: string, f: Field)
    requires Clean(local) && Clean(c.data)
    ensures Informative(UpstreamCell(Value(local, f, m), c.data, f, m)) <==> Differs(local, c, m, f)
    ensures CellDiffers(Value(local, f, m), c.data, f, m) <==> Differs(local, c, m, f)
    ensures Value(local, f, m) == Null ==> (Present(c.data, f, m) <==> Differs(local, c, m, f))
  {
  }

  lemma {:induction false} GatheredValue(channels: seq<Channel>, local: Val, field: Field, model: string, c: Channel)
    requires UniqueNames(channels) && c in channels
    ensures var g := Gather(channels, local, field, model);
            && c.name in g.upstreams && g.upstreams[c.name] == UpstreamCell(local, c.data, field, model)
            && c.name in g.trust && g.trust[c.name] == Trusted(c.data, model)
  {
    var front, last := channels[..|channels| - 1], channels[|channels| - 1];
    assert channels == front + [last];
    if c in front {
      GatheredValue(front, local, field, model, c);
      assert c.name != last.name;
    }
  }

  lemma {:induction false} GatheredNames(channels: seq<Channel>, local: Val, field: Field, model: string, n: string)
    requires n in Gather(channels, local, field, model).upstreams
    ensures exists c :: c in channels && c.name == n
  {
    var front, last := channels[..|channels| - 1], channels[|channels| - 1];
    assert channels == front + [last];
    if n != last.name {
      GatheredNames(front, local, field, model, n);
    }
  }

  lemma {:induction false} GatheredFlags(channels: seq<Channel>, local: Val, field: Field, model: string)
    ensures var g := Gather(channels, local, field, model);
            && (g.present <==> exists c :: c in channels && Present(c.data, field, model))
            && (g.differs <==> exists c :: c in channels && CellDiffers(local, c.data, field, model))
  {
    if channels != [] {
      var front, last := channels[..|channels| - 1], channels[|channels| - 1];
      GatheredFlags(front, local, field, model);
      assert channels == front + [last];
    }
  }

  lemma IncludedIff(local: Table, channels: seq<Channel>, m: string, f: Field)
    requires UniqueNames(channels) && AllClean(local, channels)
    ensures Included(local, channels, m, f) <==> exists c :: c in channels && Differs(local, c, m, f)
  {
    GatheredFlags(channels, Value(local, f, m), f, m);
    forall c | c in channels
      ensures CellDiffers(Value(local, f, m), c.data, f, m) <==> Differs(local, c, m, f)
      ensures Value(local, f, m) == Null ==> (Present(c.data, f, m) <==> Differs(local, c, m, f))
    {
      CleanCell(local, c, m, f);
    }
  }

  /** A channel has something to tell exactly when it differs somewhere. */
  lemma TellsIff(local: Table, channels: seq<Channel>, c: Channel)
    requires UniqueNames(channels) && AllClean(local, channels) && c in channels
    ensures Tells(local, channels, c.name) <==> exists m, f :: Differs(local, c, m, f)
  {
    if Tells(local, channels, c.name) {
      var m, f :| Included(local, channels, m, f) && ItemTells(ItemFor(local, channels, m, f), c.name);
      GatheredValue(channels, Value(local, f, m), f, m, c);
      CleanCell(local, c, m, f);
    }
    if m, f :| Differs(local, c, m, f) {
      IncludedIff(local, channels, m, f);
      GatheredValue(channels, Value(local, f, m), f, m, c);
      CleanCell(local, c, m, f);
      assert ItemTells(ItemFor(local, channels, m, f), c.name);
    }
  }

  /** A model and field are reported exactly when some channel differs there. */
  lemma ReportIsExact(local: Table, channels: seq<Channel>, m: string, f: Field)
    requires UniqueNames(channels) && AllClean(local, channels)
    ensures Reported(local, channels, m, f) <==> exists c :: c in channels && Differs(local, c, m, f)
  {
    IncludedIff(local, channels, m, f);
    if c :| c in channels && Differs(local, c, m, f) {
      GatheredValue(channels, Value(local, f, m), f, m, c);
      CleanCell(local, c, m, f);
      TellsIff(local, channels, c);
      assert c.name in ItemFor(local, channels, m, f).upstreams;
    }
  }

  /** A reported item names exactly the channels that differ anywhere. */
  lemma ReportNamesDifferingChannels(local: Table, channels: seq<Channel>, m: string, f: Field, n: string)
    requires UniqueNames(channels) && AllClean(local, channels)
    ensures n in ItemFor(local, channels, m, f).upstreams && Tells(local, channels, n) <==>
            exists c :: c in channels && c.name == n && exists m', f' :: Differs(local, c, m', f')
  {
    if n in ItemFor(local, channels, m, f).upstreams {
      GatheredNames(channels, Value(local, f, m), f, m, n);
    }
    forall c | c in channels && c.name == n
      ensures n in ItemFor(local, channels, m, f).upstreams
      ensures Tells(local, channels, n) <==> exists m', f' :: Differs(local, c, m', f')
    {
      GatheredValue(channels, Value(local, f, m), f, m, c);
      TellsIff(local, channels, c);
    }
  }

  /** What a reported item shows: the local value; for each channel its own value where it differs, the mark
      for equal values where it has the local one or neither has one, and nothing where it has none; and
      distrust of a ratio of 37.5 with a completion ratio of 1. */
  lemma ReportedValues(local: Table, channels: seq<Channel>, c: Channel, m: string, f: Field)
    requires UniqueNames(channels) && AllClean(local, channels) && c in channels
    ensures var item := ItemFor(local, channels, m, f);
            var priced, known := f in c.data && m in c.data[f], f in local && m in local[f];
            && item.current == (if known then local[f][m] else Null)
            && c.name in item.upstreams && c.name in item.confidence
            && item.upstreams[c.name] == (if priced && Differs(local, c, m, f) then c.data[f][m]
                                          else if priced || !known then Str("same") else Null)
            && (item.confidence[c.name] <==> !LooksUnset(c.data, m))
  {
    GatheredValue(channels, Value(local, f, m), f, m, c);
    CleanCell(local, c, m, f);
    TrustedIff(c.data, m);
  }

  /** Both ratios are there, the model's within the tolerance of 37.5 and the completion's of 1. */
  ghost predicate LooksUnset(data: Table, m: string) {
    && ModelRatio in data && m in data[ModelRatio] && data[ModelRatio][m].Num?
    && CompletionRatio in data && m in data[CompletionRatio] && data[CompletionRatio][m].Num?
    && -0.000000001 < data[ModelRatio][m].number - 37.5 < 0.000000001
    && -0.000000001 < data[CompletionRatio][m].number - 1.0 < 0.000000001
  }

  lemma TrustedIff(data: Table, m: string)
    ensures Trusted(data, m) <==> !LooksUnset(data, m)
  {
  }

  /** A value spelled like the marker hides its own difference. */
  lemma MarkerValueIsHidden()
    ensures var c := Channel("c", map[BillingMode := map["m" := SAME]]);
            Differs(map[], c, "m", BillingMode) && !Reported(map[], [c], "m", BillingMode)
  {
    var c := Channel("c", map[BillingMode := map["m" := SAME]]);
    assert [c][..0] == [];
    assert Gather([c][..0], Null, BillingMode, "m").upstreams == map[];
    assert ItemFor(map[], [c], "m", BillingMode).upstreams == map["c" := SAME];
  }
}
