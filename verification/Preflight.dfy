/// Pre-flight checks and what they make impossible later (internal/resolver/links.go,
/// internal/resolver/images.go, internal/engine/orchestrator.go, internal/engine/run.go).
///
/// A chart's maps are ranged over in any order. The file system is read twice, before
/// the start and while booting, and may have changed in between. How an image is
/// resolved is the subject of `ImageCache`; here it yields some key or fails.
module Preflight {
  import opened Names
  import CommandLine
  import Subnets
  import Texts

  datatype Error =
    | EventTopicEmpty(event: string)
    | EventUnknown(event: string)
    | DataSourceMissing(path: string)
    | DataSourcePermission(path: string)
    | DataSourceType(kind: string)
    | DataSourceUnknown(link: string)
    | VolumeMalformed(volume: string)
    | VolumeGuestPath(volume: string)
    | VolumeHostMissing(volume: string)
    | ImageUnresolved

  datatype Result<T> = Ok(value: T) | Err(error: Error)

  datatype DataSource = DataSource(name: string, kind: string, path: string)

  const FILE_TYPE := "file"

  /** What a lookup of an undeclared data source yields. */
  const ZERO_SOURCE := DataSource("", "", "")

  datatype Links = Links(soft: seq<string>, hard: seq<string>, events: seq<string>)

  datatype Control = Control(plain: bool, detached: bool, remove: bool, memory: string, kernelArgs: string)

  datatype Features = Features(volumes: seq<string>, envs: seq<string>)

  /** A stored procedure or an event trigger. */
  datatype Layer = Layer(id: string, name: string, control: Control, features: Features, links: Links)

  datatype Event = Event(id: string, name: string, topic: string, control: Control, features: Features)

  datatype Chart = Chart(
    id: string,
    dataSources: map<string, DataSource>,
    procedures: map<string, Layer>,
    triggers: map<string, Layer>,
    events: map<string, Event>)

  /** What access(2) would answer for a path. */
  datatype Access = Access(present: bool, readable: bool, writable: bool)

  type Fs = string -> Access

  // ---- Topics ----

  function TopicName(chartId: string, topic: string): string {
    chartId + "." + topic
  }

  /** Every event has a topic under its name, and every topic is one of an event of that name. */
  ghost predicate TopicsOf(chart: Chart, topicMap: map<string, string>) {
    && (forall k :: k in chart.events ==> chart.events[k].name in topicMap)
    && (forall n :: n in topicMap ==> exists k :: Publishes(chart, k, n, topicMap[n]))
  }

  predicate Publishes(chart: Chart, k: string, name: string, topic: string) {
    && k in chart.events
    && chart.events[k].name == name && chart.events[k].topic != ""
    && topic == TopicName(chart.id, chart.events[k].topic)
  }

  method BuildTopicMap(chart: Chart) returns (r: Result<map<string, string>>)
    ensures r.Ok? <==> forall k :: k in chart.events ==> chart.events[k].topic != ""
    ensures r.Ok? ==> TopicsOf(chart, r.value)
    ensures r.Err? ==>
      exists k :: k in chart.events && chart.events[k].topic == "" && r.error == EventTopicEmpty(chart.events[k].name)
  {
    var topicMap: map<string, string> := map[];
    var left := chart.events.Keys;
    while left != {}
      invariant left <= chart.events.Keys
      invariant forall k :: k in chart.events && k !in left ==>
            chart.events[k].topic != "" && chart.events[k].name in topicMap
      invariant forall n :: n in topicMap ==> exists k :: Publishes(chart, k, n, topicMap[n])
      decreases left
    {
      var k :| k in left;
      var e := chart.events[k];
      if e.topic == "" {
        return Err(EventTopicEmpty(e.name));
      }
      topicMap := topicMap[e.name := chart.id + "." + e.topic];
      assert Publishes(chart, k, e.name, topicMap[e.name]);
      left := left - {k};
    }
    r := Ok(topicMap);
  }

  /** One of the two IDs, closed by the dot, starts the other. */
  predicate TopicsCollide(c: string, d: string) {
    c + "." <= d + "." || d + "." <= c + "."
  }

  lemma SameTopicCollides(c: string, d: string, t: string, u: string)
    requires TopicName(c, t) == TopicName(d, u)
    ensures TopicsCollide(c, d)
  {
    assert c + "." <= TopicName(c, t) && d + "." <= TopicName(d, u);
    PrefixesCompare(c + ".", d + ".", TopicName(c, t));
  }

  lemma LongerIdTakesTopic(c: string, d: string)
    requires c + "." <= d + "." && c != d
    ensures exists t :: t != "" && TopicName(c, t) == TopicName(d, "x")
  {
    var t := (d + ".")[|c| + 1..] + "x";
    assert d + "." == (c + ".") + (d + ".")[|c| + 1..];
    assert TopicName(c, t) == (c + ".") + t == (d + ".") + "x";
  }

  /** Two charts can be handed the same topic exactly when one ID, closed by the dot,
      starts the other: prefixing with the ID separates all other charts. */
  lemma TopicsCollideExactly(c: string, d: string)
    ensures TopicsCollide(c, d) <==> exists t, u :: t != "" && u != "" && TopicName(c, t) == TopicName(d, u)
  {
    if t, u :| t != "" && u != "" && TopicName(c, t) == TopicName(d, u) {
      SameTopicCollides(c, d, t, u);
    }
    if c == d {
      assert TopicName(c, "x") == TopicName(d, "x");
    } else if c + "." <= d + "." {
      LongerIdTakesTopic(c, d);
    } else if d + "." <= c + "." {
      LongerIdTakesTopic(d, c);
    }
  }

  /** resolveEventLinks: the topics of the named events, in order. */
  method ResolveEventLinks(eventLinks: seq<string>, topicMap: map<string, string>) returns (r: Result<seq<string>>)
    ensures r.Ok? <==> forall n :: n in eventLinks ==> n in topicMap
    ensures r.Ok? ==> |r.value| == |eventLinks| && forall i :: 0 <= i < |eventLinks| ==>
          r.value[i] == topicMap[eventLinks[i]]
    ensures r.Err? ==>
      exists i :: 0 <= i < |eventLinks| && r.error == EventUnknown(eventLinks[i]) && eventLinks[i] !in topicMap
  {
    var topics: seq<string> := [];
    for i := 0 to |eventLinks|
      invariant |topics| == i
      invariant forall j :: 0 <= j < i ==> eventLinks[j] in topicMap && topics[j] == topicMap[eventLinks[j]]
    {
      if eventLinks[i] !in topicMap {
        return Err(EventUnknown(eventLinks[i]));
      }
      topics := topics + [topicMap[eventLinks[i]]];
    }
    r := Ok(topics);
  }

  // ---- Links ----

  const R_OK: bv8 := 4
  const W_OK: bv8 := 2

  /** access(2) with a mode. */
  predicate Permits(a: Access, mode: bv8) {
    a.present && (mode & R_OK != 0 ==> a.readable) && (mode & W_OK != 0 ==> a.writable)
  }

  predicate Reachable(ds: DataSource, hard: bool, fs: Fs) {
    && ds.kind == FILE_TYPE
    && fs(ds.path).present && fs(ds.path).readable && (hard ==> fs(ds.path).writable)
  }

  /** What each error over a data source says of it. */
  predicate SourceFails(ds: DataSource, hard: bool, error: Error, fs: Fs) {
    match error
    case DataSourceType(t) => t == ds.kind != FILE_TYPE
    case DataSourceMissing(p) => ds.kind == FILE_TYPE && p == ds.path && !fs(p).present
    case DataSourcePermission(p) =>
      ds.kind == FILE_TYPE && p == ds.path && fs(p).present && (!fs(p).readable || (hard && !fs(p).writable))
    case _ => false
  }

  method ResolveDataSource(ds: DataSource, hard: bool, fs: Fs) returns (r: Result<()>)
    ensures r.Ok? <==> Reachable(ds, hard, fs)
    ensures r.Err? ==> SourceFails(ds, hard, r.error, fs)
  {
    if ds.kind != FILE_TYPE {
      return Err(DataSourceType(ds.kind));
    }
    if !fs(ds.path).present {
      return Err(DataSourceMissing(ds.path));
    }
    var mode := R_OK;
    if hard {
      mode := mode | W_OK;
    }
    if !Permits(fs(ds.path), mode) {
      return Err(DataSourcePermission(ds.path));
    }
    r := Ok(());
  }

  function Source(dataSources: map<string, DataSource>, link: string): DataSource {
    if link in dataSources then dataSources[link] else ZERO_SOURCE
  }

  predicate HardLinksOk(hard: seq<string>, dataSources: map<string, DataSource>, fs: Fs) {
    forall h :: h in hard ==> h in dataSources && Reachable(dataSources[h], true, fs)
  }

  predicate EventLinksOk(events: seq<string>, topicMap: map<string, string>) {
    forall e :: e in events ==> e in topicMap
  }

  predicate LinksOk(links: Links, dataSources: map<string, DataSource>, topicMap: map<string, string>, fs: Fs) {
    HardLinksOk(links.hard, dataSources, fs) && EventLinksOk(links.events, topicMap)
  }

  /** The first hard link that does not pass, and why. */
  ghost predicate HardLinkFails(hard: seq<string>, dataSources: map<string, DataSource>, error: Error, fs: Fs) {
    exists i ::
      && 0 <= i < |hard| && HardLinksOk(hard[..i], dataSources, fs)
      && SourceFails(Source(dataSources, hard[i]), true, error, fs)
  }

  /** resolveLinks passes exactly when every hard link is declared, of type "file" and
      open for reading and writing, and every event link names an event. Soft links
      decide nothing: each failing one is put down as a warning. */
  method ResolveLinks(links: Links, dataSources: map<string, DataSource>, topicMap: map<string, string>, fs: Fs)
    returns (r: Result<()>, warnings: seq<string>)
    ensures r.Ok? <==> LinksOk(links, dataSources, topicMap, fs)
    ensures r.Err? && r.error.EventUnknown? ==>
      HardLinksOk(links.hard, dataSources, fs) && r.error.event in links.events && r.error.event !in topicMap
    ensures r.Err? && !r.error.EventUnknown? ==> HardLinkFails(links.hard, dataSources, r.error, fs)
    ensures r.Ok? ==> forall s :: s in warnings <==> s in links.soft && !Reachable(Source(dataSources, s), false, fs)
  {
    warnings := [];
    for i := 0 to |links.hard|
      invariant forall j :: 0 <= j < i ==>
            links.hard[j] in dataSources && Reachable(dataSources[links.hard[j]], true, fs)
    {
      var found := ResolveDataSource(Source(dataSources, links.hard[i]), true, fs);
      if found.Err? {
        assert HardLinksOk(links.hard[..i], dataSources, fs);
        return found, warnings;
      }
    }
    for i := 0 to |links.soft|
      invariant forall s :: s in warnings <==> s in links.soft[..i] && !Reachable(Source(dataSources, s), false, fs)
    {
      var found := ResolveDataSource(Source(dataSources, links.soft[i]), false, fs);
      if found.Err? {
        warnings := warnings + [links.soft[i]];
      }
    }
    assert links.soft[..|links.soft|] == links.soft;
    for i := 0 to |links.events|
      invariant forall j :: 0 <= j < i ==> links.events[j] in topicMap
    {
      if links.events[i] !in topicMap {
        return Err(EventUnknown(links.events[i])), warnings;
      }
    }
    r := Ok(());
  }

  // ---- Volumes ----

  /** The part of s up to the first c; all of s when there is none. */
  function Upto(s: string, c: char): (r: string)
    ensures r <= s && c !in r && (|r| < |s| ==> s[|r|] == c)
  {
    if s == "" || s[0] == c then "" else [s[0]] + Upto(s[1..], c)
  }

  ghost predicate VolumeOk(v: string, fs: Fs) {
    exists host, guest :: v == host + ":" + guest && ':' !in host && host != "" && "/" <= guest && fs(host).present
  }

  ghost predicate VolumesOk(volumes: seq<string>, fs: Fs) {
    forall v :: v in volumes ==> VolumeOk(v, fs)
  }

  lemma {:induction false} UptoCuts(host: string, guest: string)
    requires ':' !in host
    ensures Upto(host + ":" + guest, ':') == host
  {
    if host != "" {
      UptoCuts(host[1..], guest);
      assert (host + ":" + guest)[1..] == host[1..] + ":" + guest;
    }
  }

  lemma VolumeOkExactly(v: string, fs: Fs)
    ensures VolumeOk(v, fs) <==>
            var host := Upto(v, ':');
            |host| < |v| && host != "" && "/" <= v[|host| + 1..] && fs(host).present
  {
    var host := Upto(v, ':');
    if |host| < |v| {
      assert v == host + ":" + v[|host| + 1..];
    }
    if h, g :| v == h + ":" + g && ':' !in h && h != "" && "/" <= g && fs(h).present {
      UptoCuts(h, g);
      assert v[|h| + 1..] == g;
    }
  }

  ghost predicate SplitsInto(v: string, host: string, guest: string) {
    v == host + ":" + guest && ':' !in host && host != "" && guest != ""
  }

  /** What each error over a volume says of it. */
  ghost predicate VolumeFails(v: string, error: Error, fs: Fs) {
    match error
    case VolumeMalformed(w) => w == v && !exists host, guest :: SplitsInto(v, host, guest)
    case VolumeGuestPath(w) => w == v && exists host, guest :: SplitsInto(v, host, guest) && guest[0] != '/'
    case VolumeHostMissing(w) =>
      w == v && exists host, guest :: SplitsInto(v, host, guest) && "/" <= guest && !fs(host).present
    case _ => false
  }

  /** The first volume that does not pass, and why. */
  ghost predicate SomeVolumeFails(volumes: seq<string>, error: Error, fs: Fs) {
    exists i :: 0 <= i < |volumes| && VolumesOk(volumes[..i], fs) && VolumeFails(volumes[i], error, fs)
  }

  lemma SplitsAtFirst(v: string)
    ensures var host := Upto(v, ':');
            if |host| == |v| || host == "" || v[|host| + 1..] == "" then
              !exists h, g :: SplitsInto(v, h, g)
            else
              SplitsInto(v, host, v[|host| + 1..])
  {
    var host := Upto(v, ':');
    if |host| < |v| {
      assert v == host + ":" + v[|host| + 1..];
    }
    if h, g :| SplitsInto(v, h, g) {
      UptoCuts(h, g);
      assert v[|h| + 1..] == g;
    }
  }

  /** resolveVolumes: each volume is host:guest with an absolute guest path and a host
      path that exists. */
  method ResolveVolumes(volumes: seq<string>, fs: Fs) returns (r: Result<()>)
    ensures r.Ok? <==> VolumesOk(volumes, fs)
    ensures r.Err? ==> SomeVolumeFails(volumes, r.error, fs)
  {
    hide VolumeOk, SplitsInto;
    for i := 0 to |volumes|
      invariant forall j :: 0 <= j < i ==> VolumeOk(volumes[j], fs)
    {
      var v := volumes[i];
      var host := Upto(v, ':');
      VolumeOkExactly(v, fs);
      SplitsAtFirst(v);
      assert VolumesOk(volumes[..i], fs) && volumes[i] in volumes;
      if |host| == |v| || host == "" || v[|host| + 1..] == "" {
        return Err(VolumeMalformed(v));
      }
      var guest := v[|host| + 1..];
      if guest[0] != '/' {
        return Err(VolumeGuestPath(v));
      }
      if !fs(host).present {
        return Err(VolumeHostMissing(v));
      }
    }
    r := Ok(());
  }

  // ---- Jobs ----

  /** Where a layer stands in the chart. */
  datatype Entry = Procedure(key: string) | Trigger(key: string) | Publisher(key: string)

  datatype Job = Job(id: string, features: Features, links: Links)

  predicate InChart(chart: Chart, e: Entry) {
    match e
    case Procedure(k) => k in chart.procedures
    case Trigger(k) => k in chart.triggers
    case Publisher(k) => k in chart.events
  }

  /** Events carry no links. */
  function JobOf(chart: Chart, e: Entry): Job
    requires InChart(chart, e)
  {
    match e
    case Procedure(k) => var l := chart.procedures[k]; Job(l.id, l.features, l.links)
    case Trigger(k) => var l := chart.triggers[k]; Job(l.id, l.features, l.links)
    case Publisher(k) => var l := chart.events[k]; Job(l.id, l.features, Links([], [], []))
  }

  function ControlOf(chart: Chart, e: Entry): Control
    requires InChart(chart, e)
  {
    match e
    case Procedure(k) => chart.procedures[k].control
    case Trigger(k) => chart.triggers[k].control
    case Publisher(k) => chart.events[k].control
  }

  /** The layer that stands there; an event is one without links. */
  function LayerOf(chart: Chart, e: Entry): Layer
    requires InChart(chart, e)
  {
    match e
    case Procedure(k) => chart.procedures[k]
    case Trigger(k) => chart.triggers[k]
    case Publisher(k) =>
      var v := chart.events[k];
      Layer(v.id, v.name, v.control, v.features, Links([], [], []))
  }

  lemma JobIsTheLayers(chart: Chart, e: Entry)
    requires InChart(chart, e)
    ensures var l := LayerOf(chart, e);
            JobOf(chart, e) == Job(l.id, l.features, l.links) && ControlOf(chart, e) == l.control
  {
  }

  predicate NoDuplicates<T(==)>(s: seq<T>) {
    forall i, j :: 0 <= i < j < |s| ==> s[i] != s[j]
  }

  lemma FreshAtEnd<T>(s: seq<T>, x: T)
    requires NoDuplicates(s) && x !in s
    ensures NoDuplicates(s + [x])
  {
  }

  /** Ranging over a map: each key once, in any order. */
  method InAnyOrder(keys: set<string>) returns (order: seq<string>)
    ensures NoDuplicates(order) && |order| == |keys|
    ensures forall k :: k in order <==> k in keys
  {
    order := [];
    var left := keys;
    while left != {}
      invariant left <= keys && |order| + |left| == |keys|
      invariant NoDuplicates(order) && forall k :: k in order <==> k in keys && k !in left
      decreases left
    {
      var k :| k in left;
      FreshAtEnd(order, k);
      order, left := order + [k], left - {k};
    }
  }

  /** Each layer of the three maps once. */
  ghost predicate AllEntries(chart: Chart, entries: seq<Entry>) {
    && NoDuplicates(entries)
    && (forall e :: e in entries <==> InChart(chart, e))
    && |entries| == |chart.procedures| + |chart.triggers| + |chart.events|
  }

  function Procedures(keys: seq<string>): seq<Entry> {
    seq(|keys|, i requires 0 <= i < |keys| => Procedure(keys[i]))
  }

  function Triggers(keys: seq<string>): seq<Entry> {
    seq(|keys|, i requires 0 <= i < |keys| => Trigger(keys[i]))
  }

  function Publishers(keys: seq<string>): seq<Entry> {
    seq(|keys|, i requires 0 <= i < |keys| => Publisher(keys[i]))
  }

  function InTurn(ps: seq<string>, ts: seq<string>, es: seq<string>): (r: seq<Entry>)
    ensures |r| == |ps| + |ts| + |es|
  {
    Procedures(ps) + Triggers(ts) + Publishers(es)
  }

  function EntryAt(ps: seq<string>, ts: seq<string>, es: seq<string>, i: nat): Entry
    requires i < |ps| + |ts| + |es|
  {
    if i < |ps| then Procedure(ps[i])
    else if i < |ps| + |ts| then Trigger(ts[i - |ps|])
    else Publisher(es[i - |ps| - |ts|])
  }

  lemma InTurnAt(ps: seq<string>, ts: seq<string>, es: seq<string>, i: nat)
    requires i < |ps| + |ts| + |es|
    ensures InTurn(ps, ts, es)[i] == EntryAt(ps, ts, es, i)
  {
  }

  lemma InTurnIsAll(chart: Chart, ps: seq<string>, ts: seq<string>, es: seq<string>)
    requires NoDuplicates(ps) && |ps| == |chart.procedures| && forall k :: k in ps <==> k in chart.procedures
    requires NoDuplicates(ts) && |ts| == |chart.triggers| && forall k :: k in ts <==> k in chart.triggers
    requires NoDuplicates(es) && |es| == |chart.events| && forall k :: k in es <==> k in chart.events
    ensures AllEntries(chart, InTurn(ps, ts, es))
  {
    hide InTurn;
    var entries := InTurn(ps, ts, es);
    forall i: nat, j: nat | i < j < |entries|
      ensures entries[i] != entries[j]
    {
      InTurnAt(ps, ts, es, i);
      InTurnAt(ps, ts, es, j);
    }
    forall e
      ensures e in entries <==> InChart(chart, e)
    {
      EntryIn(chart, ps, ts, es, e);
    }
  }

  lemma EntryIn(chart: Chart, ps: seq<string>, ts: seq<string>, es: seq<string>, e: Entry)
    requires forall k :: k in ps <==> k in chart.procedures
    requires forall k :: k in ts <==> k in chart.triggers
    requires forall k :: k in es <==> k in chart.events
    ensures e in InTurn(ps, ts, es) <==> InChart(chart, e)
  {
    hide InTurn;
    if e in InTurn(ps, ts, es) {
      var i: nat :| i < |InTurn(ps, ts, es)| && InTurn(ps, ts, es)[i] == e;
      InTurnAt(ps, ts, es, i);
    }
    if InChart(chart, e) {
      var i: nat :| i < |ps| + |ts| + |es| && EntryAt(ps, ts, es, i) == e by {
        match e
        case Procedure(k) =>
          var i: nat :| i < |ps| && ps[i] == k;
          assert EntryAt(ps, ts, es, i) == e;
        case Trigger(k) =>
          var i: nat :| i < |ts| && ts[i] == k;
          assert EntryAt(ps, ts, es, |ps| + i) == e;
        case Publisher(k) =>
          var i: nat :| i < |es| && es[i] == k;
          assert EntryAt(ps, ts, es, |ps| + |ts| + i) == e;
      }
      InTurnAt(ps, ts, es, i);
    }
  }

  /** Ranging over procedures, triggers and events in turn, as the source's three loops do;
      each time anew, and each map in any order. */
  method Range(chart: Chart) returns (ps: seq<Entry>, ts: seq<Entry>, es: seq<Entry>)
    ensures AllEntries(chart, ps + ts + es)
    ensures forall e :: e in ps + ts + es ==> InChart(chart, e)
    ensures (forall e :: e in ps ==> e.Procedure?) && (forall e :: e in ts ==> e.Trigger?) && (forall e :: e in es ==>
          e.Publisher?)
  {
    var pk := InAnyOrder(chart.procedures.Keys);
    var tk := InAnyOrder(chart.triggers.Keys);
    var ek := InAnyOrder(chart.events.Keys);
    InTurnIsAll(chart, pk, tk, ek);
    ps, ts, es := Procedures(pk), Triggers(tk), Publishers(ek);
  }

  /** The jobs are those of these entries, one each. */
  ghost predicate JobsOf(chart: Chart, jobs: seq<Job>, entries: seq<Entry>) {
    && |jobs| == |entries|
    && forall i :: 0 <= i < |jobs| ==> InChart(chart, entries[i]) && jobs[i] == JobOf(chart, entries[i])
  }

  /** transformToJobs: every layer of the three maps gives exactly one job. */
  method TransformToJobs(chart: Chart) returns (jobs: seq<Job>, entries: seq<Entry>)
    ensures AllEntries(chart, entries) && JobsOf(chart, jobs, entries)
  {
    var ps, ts, es := Range(chart);
    var order := ps + ts + es;
    entries, jobs := order, [];
    for i := 0 to |order|
      invariant JobsOf(chart, jobs, order[..i])
    {
      assert order[i] in order;
      jobs := jobs + [JobOf(chart, order[i])];
    }
    assert order[..|order|] == order;
  }

  // ---- Resolving all layers ----

  /** The layer passes its checks and its image resolves. `answer` is what resolveImage yields for it. */
  ghost predicate LayerOk(job: Job, answer: Result<string>, dataSources: map<string, DataSource>,
                          topicMap: map<string, string>, fs: Fs) {
    && LinksOk(job.links, dataSources, topicMap, fs)
    && VolumesOk(job.features.volumes, fs)
    && answer.Ok?
  }

  /** resolveLayer: links, then volumes, then the image. */
  method ResolveLayer(job: Job, answer: Result<string>, dataSources: map<string, DataSource>,
                      topicMap: map<string, string>, fs: Fs)
    returns (r: Result<string>)
    ensures r.Ok? <==> LayerOk(job, answer, dataSources, topicMap, fs)
    ensures LinksOk(job.links, dataSources, topicMap, fs) && VolumesOk(job.features.volumes, fs) ==> r == answer
    ensures LinksOk(job.links, dataSources, topicMap, fs) && !VolumesOk(job.features.volumes, fs) ==>
      SomeVolumeFails(job.features.volumes, r.error, fs)
    ensures !LinksOk(job.links, dataSources, topicMap, fs) ==>
      if HardLinksOk(job.links.hard, dataSources, fs) then
        r.error.EventUnknown? && r.error.event in job.links.events && r.error.event !in topicMap
      else
        HardLinkFails(job.links.hard, dataSources, r.error, fs)
  {
    var linked, _ := ResolveLinks(job.links, dataSources, topicMap, fs);
    if linked.Err? {
      return Err(linked.error);
    }
    var mounted := ResolveVolumes(job.features.volumes, fs);
    if mounted.Err? {
      return Err(mounted.error);
    }
    r := answer;
  }

  /** The workers finished in this order, each index once. */
  ghost predicate IsOrder(order: seq<nat>, n: nat) {
    && NoDuplicates(order) && Below(order, n)
    && forall i: nat :: i in order <==> i < n
  }

  predicate Below(order: seq<nat>, n: nat) {
    forall k :: 0 <= k < |order| ==> order[k] < n
  }

  /** The image map after these workers wrote their results one after the other. */
  function WriteAll(jobs: seq<Job>, keys: seq<string>, order: seq<nat>): map<string, string>
    requires |keys| == |jobs| && Below(order, |jobs|)
  {
    if order == [] then map[]
    else
      var i := order[|order| - 1];
      WriteAll(jobs, keys, order[..|order| - 1])[jobs[i].id := keys[i]]
  }

  function IndicesBelow(n: nat): (r: set<nat>)
    ensures forall i: nat :: i in r <==> i < n
  {
    if n == 0 then {} else IndicesBelow(n - 1) + {n - 1}
  }

  function KeyOf(answer: Result<string>): string {
    if answer.Ok? then answer.value else ""
  }

  function KeysOf(answers: seq<Result<string>>): seq<string> {
    seq(|answers|, i requires 0 <= i < |answers| => KeyOf(answers[i]))
  }

  /** resolveAll: bounded workers finish in any order, and it succeeds if and only if every
      job does; the result is then what that order of completion wrote. */
  method ResolveAll(jobs: seq<Job>, answers: seq<Result<string>>, dataSources: map<string, DataSource>,
                    topicMap: map<string, string>, fs: Fs)
    returns (r: Result<map<string, string>>, ghost order: seq<nat>)
    requires |answers| == |jobs|
    ensures r.Ok? <==> forall i :: 0 <= i < |jobs| ==> LayerOk(jobs[i], answers[i], dataSources, topicMap, fs)
    ensures r.Ok? ==> IsOrder(order, |jobs|) && r.value == WriteAll(jobs, KeysOf(answers), order)
  {
    var imageMap: map<string, string> := map[];
    var left := IndicesBelow(|jobs|);
    var failed: seq<Error> := [];
    order := [];
    hide LayerOk;
    while left != {}
      invariant forall i :: i in left ==> i < |jobs|
      invariant Below(order, |jobs|) && forall i :: i in order ==> i !in left
      invariant NoDuplicates(order) && imageMap == WriteAll(jobs, KeysOf(answers), order)
      invariant failed == [] ==> forall i :: 0 <= i < |jobs| && i !in left ==>
                  i in order && LayerOk(jobs[i], answers[i], dataSources, topicMap, fs)
      invariant failed != [] ==> exists i :: 0 <= i < |jobs| && !LayerOk(jobs[i], answers[i], dataSources, topicMap, fs)
      decreases left
    {
      var i :| i in left;
      left := left - {i};
      var found := ResolveLayer(jobs[i], answers[i], dataSources, topicMap, fs);
      if found.Err? {
        failed := failed + [found.error];
      } else {
        imageMap := imageMap[jobs[i].id := found.value];
        FreshAtEnd(order, i);
        order := order + [i];
        assert order[..|order| - 1] + [i] == order;
      }
    }
    r := if failed == [] then Ok(imageMap) else Err(failed[0]);
  }

  // ---- What the order of completion decides ----

  /** The keys are the layer IDs, and each holds the result of a job of that ID. */
  lemma {:induction false} WrittenByAJob(jobs: seq<Job>, keys: seq<string>, order: seq<nat>)
    requires |keys| == |jobs| && Below(order, |jobs|)
    ensures forall i :: i in order ==> jobs[i].id in WriteAll(jobs, keys, order)
    ensures forall id :: id in WriteAll(jobs, keys, order) ==>
              exists i :: i in order && jobs[i].id == id && keys[i] == WriteAll(jobs, keys, order)[id]
  {
    if order != [] {
      var n := |order| - 1;
      WrittenByAJob(jobs, keys, order[..n]);
      assert order[..n] + [order[n]] == order;
      var before, after := WriteAll(jobs, keys, order[..n]), WriteAll(jobs, keys, order);
      forall id | id in after
        ensures exists i :: i in order && jobs[i].id == id && keys[i] == after[id]
      {
        if id == jobs[order[n]].id {
          assert order[n] in order;
        } else {
          var i :| i in order[..n] && jobs[i].id == id && keys[i] == before[id];
          assert i in order;
        }
      }
    }
  }

  /** All jobs of one layer ID were answered with one content key. */
  predicate Consistent(jobs: seq<Job>, keys: seq<string>)
    requires |keys| == |jobs|
  {
    forall i, j :: 0 <= i < |jobs| && 0 <= j < |jobs| && jobs[i].id == jobs[j].id ==> keys[i] == keys[j]
  }

  /** The indices below n but one, and that one last. */
  function Skipping(n: nat, skip: nat): seq<nat> {
    if n == 0 then [] else Skipping(n - 1, skip) + if n - 1 == skip then [] else [n - 1]
  }

  lemma {:induction false} SkippingIsTheRest(n: nat, skip: nat)
    ensures forall i: nat :: i in Skipping(n, skip) <==> i < n && i != skip
    ensures NoDuplicates(Skipping(n, skip))
  {
    if n > 0 {
      SkippingIsTheRest(n - 1, skip);
      FreshAtEnd(Skipping(n - 1, skip), n - 1);
    }
  }

  lemma SkippedLast(n: nat, last: nat)
    requires last < n
    ensures IsOrder(Skipping(n, last) + [last], n)
  {
    hide Skipping, NoDuplicates;
    var rest := Skipping(n, last);
    SkippingIsTheRest(n, last);
    FreshAtEnd(rest, last);
    var order := rest + [last];
    forall k | 0 <= k < |order|
      ensures order[k] < n
    {
      assert k < |rest| ==> order[k] in rest;
    }
    forall i: nat
      ensures i in order <==> i < n
    {
      assert i in order <==> i in rest || i == last;
    }
  }

  lemma LastWriterWins(jobs: seq<Job>, keys: seq<string>, i: nat)
    requires |keys| == |jobs| && i < |jobs|
    ensures var order := Skipping(|jobs|, i) + [i];
            && IsOrder(order, |jobs|) && jobs[i].id in WriteAll(jobs, keys, order)
            && WriteAll(jobs, keys, order)[jobs[i].id] == keys[i]
  {
    hide Skipping;
    var rest := Skipping(|jobs|, i);
    SkippedLast(|jobs|, i);
    assert (rest + [i])[..|rest|] == rest;
  }

  /** Every order of completion gives each layer its own result, and so the same map,
      exactly when no two layers of one ID were answered with different content keys;
      with distinct IDs, always. */
  lemma OrderIsIrrelevantExactly(jobs: seq<Job>, keys: seq<string>)
    requires |keys| == |jobs|
    ensures Consistent(jobs, keys) <==>
            forall order, i :: IsOrder(order, |jobs|) && 0 <= i < |jobs| ==>
              jobs[i].id in WriteAll(jobs, keys, order) && WriteAll(jobs, keys, order)[jobs[i].id] == keys[i]
  {
    if Consistent(jobs, keys) {
      forall order, i | IsOrder(order, |jobs|) && 0 <= i < |jobs|
        ensures jobs[i].id in WriteAll(jobs, keys, order) && WriteAll(jobs, keys, order)[jobs[i].id] == keys[i]
      {
        WrittenByAJob(jobs, keys, order);
        assert (i as nat) in order;
      }
    } else {
      var i, j :| 0 <= i < |jobs| && 0 <= j < |jobs| && jobs[i].id == jobs[j].id && keys[i] != keys[j];
      LastWriterWins(jobs, keys, i);
      assert IsOrder(Skipping(|jobs|, i) + [i], |jobs|);
    }
  }

  // ---- What a successful pre-flight leaves for the boot loops to trip over ----

  predicate Declared(links: seq<string>, dataSources: map<string, DataSource>) {
    forall l :: l in links ==> l in dataSources
  }

  /** What the boot loops rely on after the pre-flight. */
  ghost predicate Passed(chart: Chart, topicMap: map<string, string>, imageMap: map<string, string>) {
    && TopicsOf(chart, topicMap)
    && forall e :: InChart(chart, e) ==> LayerPassed(chart, e, topicMap, imageMap)
  }

  predicate LayerPassed(chart: Chart, e: Entry, topicMap: map<string, string>, imageMap: map<string, string>)
    requires InChart(chart, e)
  {
    var job := JobOf(chart, e);
    job.id in imageMap && EventLinksOk(job.links.events, topicMap) && Declared(job.links.hard, chart.dataSources)
  }

  ghost predicate AllLayersOk(chart: Chart, answers: Entry -> Result<string>, topicMap: map<string, string>, fs: Fs) {
    forall e :: InChart(chart, e) ==> LayerOk(JobOf(chart, e), answers(e), chart.dataSources, topicMap, fs)
  }

  /** The keys are the layer IDs, and each holds what a layer of that ID was answered with. */
  ghost predicate ImagesOf(chart: Chart, answers: Entry -> Result<string>, imageMap: map<string, string>) {
    && (forall e :: InChart(chart, e) ==> LayerOf(chart, e).id in imageMap)
    && (forall id :: id in imageMap ==>
          exists e :: InChart(chart, e) && LayerOf(chart, e).id == id && answers(e) == Ok(imageMap[id]))
  }

  /** ResolveLayers succeeds if and only if every layer passes its checks and has an image. */
  method ResolveLayers(chart: Chart, answers: Entry -> Result<string>, topicMap: map<string, string>, fs: Fs)
    returns (r: Result<map<string, string>>)
    ensures r.Ok? <==> AllLayersOk(chart, answers, topicMap, fs)
    ensures r.Ok? ==> ImagesOf(chart, answers, r.value)
  {
    var jobs, entries := TransformToJobs(chart);
    var images := seq(|entries|, i requires 0 <= i < |entries| => answers(entries[i]));
    ghost var order;
    r, order := ResolveAll(jobs, images, chart.dataSources, topicMap, fs);
    EachLayerIsAJob(chart, jobs, entries, answers, images, topicMap, fs);
    if r.Ok? {
      WrittenImages(chart, jobs, entries, answers, images, order);
    }
  }

  lemma EachLayerIsAJob(chart: Chart, jobs: seq<Job>, entries: seq<Entry>, answers: Entry -> Result<string>,
                        images: seq<Result<string>>, topicMap: map<string, string>, fs: Fs)
    requires JobsOf(chart, jobs, entries) && AllEntries(chart, entries)
    requires |images| == |jobs| && forall i :: 0 <= i < |images| ==> images[i] == answers(entries[i])
    ensures AllLayersOk(chart, answers, topicMap, fs) <==>
            forall i :: 0 <= i < |jobs| ==> LayerOk(jobs[i], images[i], chart.dataSources, topicMap, fs)
  {
  }

  lemma WrittenImages(chart: Chart, jobs: seq<Job>, entries: seq<Entry>, answers: Entry -> Result<string>,
                      images: seq<Result<string>>, order: seq<nat>)
    requires JobsOf(chart, jobs, entries) && AllEntries(chart, entries)
    requires |images| == |jobs| && forall i :: 0 <= i < |images| ==> images[i] == answers(entries[i]) && images[i].Ok?
    requires IsOrder(order, |jobs|)
    ensures ImagesOf(chart, answers, WriteAll(jobs, KeysOf(images), order))
  {
    hide JobOf, LayerOf, InChart, ControlOf;
    var imageMap := WriteAll(jobs, KeysOf(images), order);
    WrittenByAJob(jobs, KeysOf(images), order);
    hide WriteAll;
    forall e | InChart(chart, e)
      ensures LayerOf(chart, e).id in imageMap
    {
      JobIsTheLayers(chart, e);
      var i: nat :| i < |entries| && entries[i] == e;
      assert jobs[i] == JobOf(chart, e) && i in order;
    }
    forall id | id in imageMap
      ensures exists e :: InChart(chart, e) && LayerOf(chart, e).id == id && answers(e) == Ok(imageMap[id])
    {
      var i :| i in order && jobs[i].id == id && KeysOf(images)[i] == imageMap[id];
      JobIsTheLayers(chart, entries[i]);
      assert InChart(chart, entries[i]) && answers(entries[i]) == images[i];
    }
  }

  /** With distinct layer IDs each layer boots the image it was itself answered with. */
  lemma OwnImages(chart: Chart, answers: Entry -> Result<string>, imageMap: map<string, string>, e: Entry)
    requires ImagesOf(chart, answers, imageMap) && InChart(chart, e)
    requires forall d :: InChart(chart, d) && LayerOf(chart, d).id == LayerOf(chart, e).id ==> answers(d) == answers(e)
    ensures LayerOf(chart, e).id in imageMap && answers(e) == Ok(imageMap[LayerOf(chart, e).id])
  {
  }

  function Mounts(links: seq<string>, dataSources: map<string, DataSource>, volumeOf: DataSource -> string)
    : seq<string>
  {
    if links == [] then []
    else Mounts(links[..|links| - 1], dataSources, volumeOf) + [volumeOf(Source(dataSources, links[|links| - 1]))]
  }

  function PresentMounts(links: seq<string>, dataSources: map<string, DataSource>, volumeOf: DataSource -> string,
                         fs: Fs)
    : seq<string>
  {
    if links == [] then []
    else
      var ds := Source(dataSources, links[|links| - 1]);
      PresentMounts(links[..|links| - 1], dataSources, volumeOf, fs)
      + if fs(ds.path).present then [volumeOf(ds)] else []
  }

  /** All hard links, then the soft links that are there. */
  function MountsOf(links: Links, dataSources: map<string, DataSource>, volumeOf: DataSource -> string,
                    fs: Fs): seq<string> {
    Mounts(links.hard, dataSources, volumeOf) + PresentMounts(links.soft, dataSources, volumeOf, fs)
  }

  /** dataSourceMounts fails on any link that is not declared, hard or soft. */
  method DataSourceMounts(links: Links, dataSources: map<string, DataSource>, volumeOf: DataSource -> string, fs: Fs)
    returns (r: Result<seq<string>>)
    ensures r.Ok? <==> Declared(links.hard, dataSources) && Declared(links.soft, dataSources)
    ensures r.Ok? ==> r.value == MountsOf(links, dataSources, volumeOf, fs)
    ensures r.Err? ==> r.error.DataSourceUnknown? && r.error.link !in dataSources
    ensures r.Err? ==> r.error.link in links.hard || (Declared(links.hard, dataSources) && r.error.link in links.soft)
  {
    var mounts: seq<string> := [];
    for i := 0 to |links.hard|
      invariant forall j :: 0 <= j < i ==> links.hard[j] in dataSources
      invariant mounts == Mounts(links.hard[..i], dataSources, volumeOf)
    {
      if links.hard[i] !in dataSources {
        return Err(DataSourceUnknown(links.hard[i]));
      }
      assert links.hard[..i + 1][..i] == links.hard[..i];
      mounts := mounts + [volumeOf(dataSources[links.hard[i]])];
    }
    assert links.hard[..|links.hard|] == links.hard;
    ghost var hard := mounts;
    for i := 0 to |links.soft|
      invariant forall j :: 0 <= j < i ==> links.soft[j] in dataSources
      invariant mounts == hard + PresentMounts(links.soft[..i], dataSources, volumeOf, fs)
    {
      if links.soft[i] !in dataSources {
        return Err(DataSourceUnknown(links.soft[i]));
      }
      assert links.soft[..i + 1][..i] == links.soft[..i];
      if fs(dataSources[links.soft[i]].path).present {
        mounts := mounts + [volumeOf(dataSources[links.soft[i]])];
      }
    }
    assert links.soft[..|links.soft|] == links.soft;
    r := Ok(mounts);
  }

  // ---- The kraft command of a layer ----

  function Envs(envs: seq<string>, mqAddr: string, topics: seq<string>): seq<string> {
    envs
    + (if mqAddr == "" then [] else ["MQ_ADDR=" + mqAddr])
    + (if topics == [] then [] else ["TOPICS=" + Texts.Join(',', topics)])
  }

  /** Everything a layer is booted with. */
  function OptionsOf(kernel: string, initrd: string, mqAddr: string, name: string, control: Control, features: Features,
                     mounts: seq<string>, topics: seq<string>): CommandLine.Options {
    CommandLine.Options(
      if mqAddr == "" then "" else Subnets.BROKER_NETWORK,
      control.memory, control.remove, control.detached, control.plain,
      features.volumes + mounts,
      Envs(features.envs, mqAddr, topics),
      name,
      initrd,
      if initrd == "" then "" else CommandLine.ROOTFS_MOUNT,
      kernel,
      if control.kernelArgs == "" then [] else ["--"] + Texts.Fields(control.kernelArgs))
  }

  /** One of the loops of BuildArgs that append a flag and a value at a time. */
  method AppendEach(args0: seq<string>, flag: string, values: seq<string>) returns (args: seq<string>)
    ensures args == args0 + CommandLine.Each(flag, values)
  {
    args := args0;
    assert values[0..] == values;
    for i := 0 to |values|
      invariant args + CommandLine.Each(flag, values[i..]) == args0 + CommandLine.Each(flag, values)
    {
      assert values[i..][0] == values[i] && values[i..][1..] == values[i + 1..];
      var rest := CommandLine.Each(flag, values[i + 1..]);
      CommandLine.Append(args, [flag, values[i]], rest, args0 + CommandLine.Each(flag, values));
      args := args + [flag, values[i]];
    }
    assert values[|values|..] == [];
  }

  /** The first part of BuildArgs. */
  method WriteHead(mqAddr: string, control: Control, ghost o: CommandLine.Options) returns (args: seq<string>)
    requires o.network == if mqAddr == "" then "" else Subnets.BROKER_NETWORK
    requires o.memory == control.memory
    requires o.remove == control.remove && o.detached == control.detached && o.plain == control.plain
    ensures args == CommandLine.Head(o)
  {
    args := ["run", "--no-prompt"];
    if mqAddr != "" {
      args := args + [CommandLine.NETWORK, Subnets.BROKER_NETWORK];
    }
    if control.memory != "" {
      args := args + [CommandLine.MEMORY, control.memory];
    }
    if control.remove {
      args := args + [CommandLine.REMOVE];
    }
    if control.detached {
      args := args + [CommandLine.DETACH];
    }
    if control.plain {
      args := args + [CommandLine.PLAIN];
    }
  }

  /** The part of BuildArgs that writes the environment. */
  method WriteEnvs(args0: seq<string>, envs: seq<string>, mqAddr: string, topics: seq<string>)
    returns (args: seq<string>)
    ensures args == args0 + CommandLine.Each(CommandLine.ENV, Envs(envs, mqAddr, topics))
  {
    hide CommandLine.Each, Texts.Join;
    args := AppendEach(args0, CommandLine.ENV, envs);
    ghost var all := envs;
    if mqAddr != "" {
      var value := "MQ_ADDR=" + mqAddr;
      CommandLine.OneMoreValue(CommandLine.ENV, all, value);
      args, all := args + [CommandLine.ENV, value], all + [value];
    }
    if topics != [] {
      var value := "TOPICS=" + Texts.Join(',', topics);
      CommandLine.OneMoreValue(CommandLine.ENV, all, value);
      args, all := args + [CommandLine.ENV, value], all + [value];
    }
    assert all == Envs(envs, mqAddr, topics);
  }

  /** BuildArgs fails over an undeclared link and nothing else; otherwise it writes the
      layer's options, all of them. */
  method BuildArgs(kernel: string, initrd: string, mqAddr: string, name: string, control: Control, features: Features,
                   links: Links, dataSources: map<string, DataSource>, topics: seq<string>,
                   volumeOf: DataSource -> string, fs: Fs)
    returns (r: Result<seq<string>>)
    ensures r.Ok? <==> Declared(links.hard, dataSources) && Declared(links.soft, dataSources)
    ensures r.Ok? ==>
      r.value == CommandLine.ArgsOf(OptionsOf(kernel, initrd, mqAddr, name, control, features,
                                              MountsOf(links, dataSources, volumeOf, fs), topics))
    ensures r.Err? ==> r.error.DataSourceUnknown? && r.error.link !in dataSources
    ensures r.Err? && Declared(links.hard, dataSources) ==> r.error.link in links.soft
  {
    hide MountsOf, Envs, Texts.Fields, CommandLine.ArgsOf, CommandLine.Head, CommandLine.Each;
    ghost var all := MountsOf(links, dataSources, volumeOf, fs);
    ghost var o := OptionsOf(kernel, initrd, mqAddr, name, control, features, all, topics);
    var args := WriteHead(mqAddr, control, o);
    args := AppendEach(args, CommandLine.VOLUME, features.volumes);
    var mounts := DataSourceMounts(links, dataSources, volumeOf, fs);
    if mounts.Err? {
      return Err(mounts.error);
    }
    CommandLine.EachOfBoth(CommandLine.VOLUME, features.volumes, mounts.value);
    args := AppendEach(args, CommandLine.VOLUME, mounts.value);
    args := WriteEnvs(args, features.envs, mqAddr, topics);
    args := args + [CommandLine.NAME, name];
    if initrd != "" {
      args := args + [CommandLine.ROOTFS, initrd] + [CommandLine.KERNEL_ARG, CommandLine.ROOTFS_MOUNT];
    }
    args := args + [kernel];
    if control.kernelArgs != "" {
      args := args + (["--"] + Texts.Fields(control.kernelArgs));
    }
    assert args == CommandLine.InOrder(o);
    CommandLine.OrderIsArgs(o);
    r := Ok(args);
  }

  // ---- The boot loops ----

  /** What the boot loops work with: the image map and the topics come from the pre-flight. */
  datatype Boot = Boot(
    chart: Chart,
    topicMap: map<string, string>,
    imageMap: map<string, string>,
    fs: Fs,
    imageDir: string,
    mqAddr: string,
    volumeOf: DataSource -> string)

  function BinFile(imageDir: string, contentKey: string, name: string): string {
    imageDir + "/" + contentKey + "/unikraft/bin/" + name
  }

  /** The topics a layer is handed: none, those its event links name, or its own. */
  ghost function TopicsFor(b: Boot, e: Entry): seq<string>
    requires InChart(b.chart, e) && Passed(b.chart, b.topicMap, b.imageMap)
  {
    match e
    case Procedure(_) => []
    case Trigger(k) =>
      assert LayerPassed(b.chart, e, b.topicMap, b.imageMap);
      var names := b.chart.triggers[k].links.events;
      seq(|names|, i requires 0 <= i < |names| => b.topicMap[names[i]])
    case Publisher(k) => [b.topicMap[b.chart.events[k].name]]
  }

  /** One kraft command: the machine it names, and its arguments. */
  datatype Command = Command(machine: string, args: seq<string>)

  /** The machine is run as the layer says. */
  predicate Controlled(c: Control, o: CommandLine.Options) {
    && o.memory == c.memory && o.remove == c.remove && o.detached == c.detached && o.plain == c.plain
    && o.tail == if c.kernelArgs == "" then [] else ["--"] + Texts.Fields(c.kernelArgs)
  }

  /** Kernel and root file system are files of the image resolved for this layer ID, the
      latter if it is there. */
  ghost predicate OwnImage(b: Boot, id: string, o: CommandLine.Options) {
    && id in b.imageMap
    && var dir := b.imageDir + "/" + b.imageMap[id] + "/unikraft/bin/";
       && o.kernel == dir + "kernel"
       && o.rootfs == (if b.fs(dir + "initrd").present then dir + "initrd" else "")
       && o.mount == (if o.rootfs == "" then "" else CommandLine.ROOTFS_MOUNT)
  }

  /** A procedure is kept off the network and told nothing; any other layer is attached to
      the broker's bridge and told the address, if there is a broker, and its topics. */
  ghost predicate Connected(mqAddr: string, e: Entry, envs: seq<string>, topics: seq<string>,
                            o: CommandLine.Options) {
    if e.Procedure? then
      o.network == "" && o.envs == envs
    else if mqAddr == "" then
      o.network == "" && o.envs == envs + Told(topics)
    else
      o.network == "gprunner0" && o.envs == envs + ["MQ_ADDR=" + mqAddr] + Told(topics)
  }

  function Told(topics: seq<string>): seq<string> {
    if topics == [] then [] else ["TOPICS=" + Texts.Join(',', topics)]
  }

  /** The layer at e is booted with all that is its own. */
  ghost predicate Boots(b: Boot, e: Entry, o: CommandLine.Options)
    requires InChart(b.chart, e) && Passed(b.chart, b.topicMap, b.imageMap)
  {
    var l := LayerOf(b.chart, e);
    && o.name == MachineName(b.chart.id, l.id)
    && Controlled(l.control, o)
    && OwnImage(b, l.id, o)
    && Connected(b.mqAddr, e, l.features.envs, TopicsFor(b, e), o)
    && o.volumes == l.features.volumes + MountsOf(l.links, b.chart.dataSources, b.volumeOf, b.fs)
  }

  /** kraft reads from the command what the layer is to be booted with. */
  ghost predicate Runs(b: Boot, e: Entry, c: Command) {
    && InChart(b.chart, e) && Passed(b.chart, b.topicMap, b.imageMap)
    && c.machine == MachineName(b.chart.id, LayerOf(b.chart, e).id)
    && ReadOf(c).Some? && Boots(b, e, ReadOf(c).value)
  }

  function ReadOf(c: Command): CommandLine.Option<CommandLine.Options> {
    if |c.args| < 2 then CommandLine.None else CommandLine.Read(c.args[2..], CommandLine.NO_OPTIONS)
  }

  /** The layer's soft links are all declared. */
  predicate SoftDeclared(chart: Chart, e: Entry) {
    InChart(chart, e) ==> Declared(LayerOf(chart, e).links.soft, chart.dataSources)
  }

  ghost predicate AllSoftDeclared(chart: Chart) {
    forall e :: SoftDeclared(chart, e)
  }

  ghost predicate UndeclaredIn(chart: Chart, link: string) {
    link !in chart.dataSources && exists e :: InChart(chart, e) && link in LayerOf(chart, e).links.soft
  }

  lemma KernelIsNoFlag(imageDir: string, contentKey: string)
    requires "/" <= imageDir
    ensures !CommandLine.IsFlag(BinFile(imageDir, contentKey, "kernel"))
  {
    assert BinFile(imageDir, contentKey, "kernel")[0] == '/';
    assert forall w :: w in CommandLine.SWITCHES || w in CommandLine.VALUED ==> w[0] == '-';
  }

  lemma WrittenIsRead(o: CommandLine.Options)
    requires !CommandLine.IsFlag(o.kernel)
    ensures var args := CommandLine.ArgsOf(o);
            |args| >= 2 && CommandLine.Read(args[2..], CommandLine.NO_OPTIONS) == CommandLine.Some(o)
  {
    CommandLine.ReadBack(o);
    hide CommandLine.FlagsOf, CommandLine.Read;
    assert CommandLine.ArgsOf(o)[2..] == CommandLine.FlagsOf(o);
  }

  /** The topics a boot loop looks up. */
  method ResolveTopics(b: Boot, e: Entry) returns (topics: seq<string>)
    requires InChart(b.chart, e) && Passed(b.chart, b.topicMap, b.imageMap)
    ensures topics == TopicsFor(b, e)
  {
    assert LayerPassed(b.chart, e, b.topicMap, b.imageMap);
    match e {
      case Procedure(_) => topics := [];
      case Trigger(k) =>
        var named := ResolveEventLinks(b.chart.triggers[k].links.events, b.topicMap);
        topics := named.value;
      case Publisher(k) => topics := [b.topicMap[b.chart.events[k].name]];
    }
  }

  /** The body of the boot loop this layer belongs to, up to the kraft command. After a
      pre-flight its lookups of images and topics hit and resolveEventLinks succeeds, so
      an undeclared soft link is the only thing left that can stop it. */
  method PrepareLayer(b: Boot, e: Entry) returns (r: Result<Command>)
    requires InChart(b.chart, e) && Passed(b.chart, b.topicMap, b.imageMap) && "/" <= b.imageDir
    ensures r.Ok? <==> SoftDeclared(b.chart, e)
    ensures r.Ok? ==> Runs(b, e, r.value)
    ensures r.Err? ==> r.error.DataSourceUnknown? && UndeclaredIn(b.chart, r.error.link)
  {
    hide MountsOf, OptionsOf, Declared, CommandLine.Read, CommandLine.ArgsOf, TopicsFor, TopicsOf, EventLinksOk, Boots;
    var chart, job := b.chart, JobOf(b.chart, e);
    JobIsTheLayers(chart, e);
    var topics := ResolveTopics(b, e);
    assert LayerPassed(chart, e, b.topicMap, b.imageMap);
    var key, name := b.imageMap[job.id], MachineName(chart.id, job.id);
    var kernel, initrd := BinFile(b.imageDir, key, "kernel"), BinFile(b.imageDir, key, "initrd");
    var rootfs := if b.fs(initrd).present then initrd else "";
    var mqAddr := if e.Procedure? then "" else b.mqAddr;
    var args := BuildArgs(kernel, rootfs, mqAddr, name, ControlOf(chart, e), job.features, job.links,
                          chart.dataSources, topics, b.volumeOf, b.fs);
    if args.Err? {
      assert UndeclaredIn(chart, args.error.link);
      return Err(args.error);
    }
    KernelIsNoFlag(b.imageDir, key);
    OptionsBoot(b, e, topics);
    WrittenIsRead(OptionsOf(kernel, rootfs, mqAddr, name, ControlOf(chart, e), job.features,
                            MountsOf(job.links, chart.dataSources, b.volumeOf, b.fs), topics));
    r := Ok(Command(name, args.value));
  }

  /** What a boot loop hands to BuildArgs is what the layer is to be booted with. */
  lemma OptionsBoot(b: Boot, e: Entry, topics: seq<string>)
    requires InChart(b.chart, e) && Passed(b.chart, b.topicMap, b.imageMap) && topics == TopicsFor(b, e)
    requires JobOf(b.chart, e).id in b.imageMap
    ensures var job := JobOf(b.chart, e);
            var key := b.imageMap[job.id];
            var kernel, initrd := BinFile(b.imageDir, key, "kernel"), BinFile(b.imageDir, key, "initrd");
            var o := OptionsOf(kernel, if b.fs(initrd).present then initrd else "",
                               if e.Procedure? then "" else b.mqAddr, MachineName(b.chart.id, job.id),
                               ControlOf(b.chart, e), job.features,
                               MountsOf(job.links, b.chart.dataSources, b.volumeOf, b.fs), topics);
            o.kernel == kernel && Boots(b, e, o)
  {
    JobIsTheLayers(b.chart, e);
    hide Passed, MountsOf, TopicsFor, JobOf, ControlOf, LayerOf, Texts.Fields, Texts.Join, MachineName;
  }

  // ---- What that comes to ----

  /** Two layers boot from one kernel, or one root file system, exactly when they were
      resolved to one image; and nothing is booted from outside its own image. */
  lemma ImagesApart(b: Boot, id: string, o: CommandLine.Options, id': string, o': CommandLine.Options)
    requires OwnImage(b, id, o) && OwnImage(b, id', o')
    ensures b.imageDir + "/" + b.imageMap[id] + "/" <= o.kernel
    ensures o.rootfs != "" ==> b.imageDir + "/" + b.imageMap[id] + "/" <= o.rootfs
    ensures o.kernel != o'.rootfs
    ensures o.kernel == o'.kernel <==> b.imageMap[id] == b.imageMap[id']
    ensures o.rootfs != "" && o'.rootfs != "" ==> (o.rootfs == o'.rootfs <==> b.imageMap[id] == b.imageMap[id'])
  {
    FileNames(b.imageDir, b.imageMap[id], b.imageMap[id']);
  }

  lemma FileNames(imageDir: string, k: string, k': string)
    ensures var dir, dir' := imageDir + "/" + k + "/unikraft/bin/", imageDir + "/" + k' + "/unikraft/bin/";
            && imageDir + "/" + k + "/" <= dir + "kernel" && imageDir + "/" + k + "/" <= dir + "initrd"
            && dir + "kernel" != dir' + "initrd" && dir + "kernel" != "" && dir + "initrd" != ""
            && (dir + "kernel" == dir' + "kernel" ==> k == k') && (dir + "initrd" == dir' + "initrd" ==> k == k')
  {
    var dir, dir' := imageDir + "/" + k + "/unikraft/bin/", imageDir + "/" + k' + "/unikraft/bin/";
    if dir + "kernel" == dir' + "kernel" {
      SameDir(imageDir, k, k', "kernel");
    }
    if dir + "initrd" == dir' + "initrd" {
      SameDir(imageDir, k, k', "initrd");
    }
    assert (dir + "kernel")[|dir| + 5] == 'l' && (dir' + "initrd")[|dir'| + 5] == 'd';
    assert "/unikraft/bin/"[0] == '/';
  }

  lemma SameDir(imageDir: string, k: string, k': string, name: string)
    requires imageDir + "/" + k + "/unikraft/bin/" + name == imageDir + "/" + k' + "/unikraft/bin/" + name
    ensures k == k'
  {
    var s, n := imageDir + "/" + k + "/unikraft/bin/" + name, |imageDir| + 1;
    var s' := imageDir + "/" + k' + "/unikraft/bin/" + name;
    assert |k| == |k'| && s[n..n + |k|] == k && s'[n..n + |k'|] == k';
  }

  /** A guest finds its topics in TOPICS, all of them and in order, exactly when none of
      them holds a comma. */
  lemma TopicsGivenBackExactly(topics: seq<string>)
    requires topics != []
    ensures |Told(topics)| == 1 && "TOPICS=" <= Told(topics)[0]
    ensures Texts.Split(',', Told(topics)[0][7..]) == topics <==> forall t :: t in topics ==> ',' !in t
  {
    assert Told(topics)[0][7..] == Texts.Join(',', topics);
    Texts.JoinGivesBackExactly(',', topics);
  }

  /** A trigger is told the very topic under which the publishers of the event it links are
      told to publish, and it is the chart's own topic of an event of that name. */
  lemma TriggersHearPublishers(b: Boot, k: string, i: nat, j: string)
    requires Passed(b.chart, b.topicMap, b.imageMap) && k in b.chart.triggers && j in b.chart.events
    requires i < |b.chart.triggers[k].links.events| && b.chart.triggers[k].links.events[i] == b.chart.events[j].name
    ensures |TopicsFor(b, Trigger(k))| == |b.chart.triggers[k].links.events|
    ensures TopicsFor(b, Publisher(j)) == [TopicsFor(b, Trigger(k))[i]]
    ensures exists m :: Publishes(b.chart, m, b.chart.events[j].name, TopicsFor(b, Trigger(k))[i])
  {
    assert LayerPassed(b.chart, Trigger(k), b.topicMap, b.imageMap);
  }

  /** The commands run these entries, one each, in order; their soft links are declared. */
  ghost predicate Prepared(b: Boot, commands: seq<Command>, entries: seq<Entry>) {
    && |commands| == |entries|
    && forall i :: 0 <= i < |entries| ==> SoftDeclared(b.chart, entries[i]) && Runs(b, entries[i], commands[i])
  }

  /** The three boot loops, were every kraft command to succeed: one command a layer. */
  method PrepareAll(b: Boot) returns (r: Result<seq<Command>>, ghost entries: seq<Entry>)
    requires Passed(b.chart, b.topicMap, b.imageMap) && "/" <= b.imageDir
    ensures r.Ok? <==> AllSoftDeclared(b.chart)
    ensures AllEntries(b.chart, entries) && (r.Ok? ==> Prepared(b, r.value, entries))
    ensures r.Err? ==> r.error.DataSourceUnknown? && UndeclaredIn(b.chart, r.error.link)
  {
    hide Passed, Runs, UndeclaredIn;
    var ps, ts, es := Range(b.chart);
    var order := ps + ts + es;
    entries := order;
    var commands: seq<Command> := [];
    for i := 0 to |order|
      invariant Prepared(b, commands, order[..i])
    {
      assert order[i] in order;
      var prepared := PrepareLayer(b, order[i]);
      if prepared.Err? {
        return Err(prepared.error), entries;
      }
      commands := commands + [prepared.value];
    }
    assert order[..|order|] == order;
    AllDeclared(b, commands, order);
    r := Ok(commands);
  }

  lemma AllDeclared(b: Boot, commands: seq<Command>, entries: seq<Entry>)
    requires AllEntries(b.chart, entries) && Prepared(b, commands, entries)
    ensures AllSoftDeclared(b.chart)
  {
  }

  ghost predicate NamesEvent(chart: Chart, name: string) {
    exists k :: k in chart.events && chart.events[k].name == name
  }

  /** What a chart needs to pass the pre-flight on this file system with these images. */
  ghost predicate Startable(chart: Chart, answers: Entry -> Result<string>, fs: Fs) {
    && (forall k :: k in chart.events ==> chart.events[k].topic != "")
    && forall e :: InChart(chart, e) ==> LayerStartable(chart, e, answers(e), fs)
  }

  ghost predicate LayerStartable(chart: Chart, e: Entry, answer: Result<string>, fs: Fs)
    requires InChart(chart, e)
  {
    var l := LayerOf(chart, e);
    && HardLinksOk(l.links.hard, chart.dataSources, fs)
    && (forall n :: n in l.links.events ==> NamesEvent(chart, n))
    && VolumesOk(l.features.volumes, fs)
    && answer.Ok?
  }

  lemma StartableExactly(chart: Chart, answers: Entry -> Result<string>, topicMap: map<string, string>, fs: Fs)
    requires TopicsOf(chart, topicMap) && forall k :: k in chart.events ==> chart.events[k].topic != ""
    ensures AllLayersOk(chart, answers, topicMap, fs) <==> Startable(chart, answers, fs)
  {
  }

  lemma ChecksCarryOver(chart: Chart, answers: Entry -> Result<string>, topicMap: map<string, string>,
                        imageMap: map<string, string>, fs: Fs)
    requires TopicsOf(chart, topicMap)
    requires AllLayersOk(chart, answers, topicMap, fs) && ImagesOf(chart, answers, imageMap)
    ensures Passed(chart, topicMap, imageMap)
  {
  }

  /** What a runner starts charts with, besides the chart. */
  datatype Setup = Setup(imageDir: string, mqAddr: string, volumeOf: DataSource -> string)

  /** What the boot loops work with is what the runner was set up with. */
  ghost predicate FitsSetup(b: Boot, chart: Chart, setup: Setup, later: Fs) {
    && b.chart == chart && b.fs == later
    && b.imageDir == setup.imageDir && b.mqAddr == setup.mqAddr && b.volumeOf == setup.volumeOf
  }

  /** kraft reads from this command: the kernel is one of the image resolved for the layer
      and, but for a procedure, the guest can reach the broker. */
  ghost predicate BootsAsSetUp(chart: Chart, setup: Setup, imageMap: map<string, string>, e: Entry, c: Command) {
    && InChart(chart, e) && LayerOf(chart, e).id in imageMap && ReadOf(c).Some?
    && var l, o := LayerOf(chart, e), ReadOf(c).value;
       && setup.imageDir + "/" + imageMap[l.id] + "/" <= o.kernel
       && (o.rootfs != "" ==> setup.imageDir + "/" + imageMap[l.id] + "/" <= o.rootfs != o.kernel)
       && (e.Procedure? ==> o.network == "" && o.envs == l.features.envs)
       && (!e.Procedure? && setup.mqAddr != "" ==>
             o.network == "gprunner0" && "MQ_ADDR=" + setup.mqAddr in o.envs)
  }

  lemma RunsAsSetUp(b: Boot, setup: Setup, e: Entry, c: Command)
    requires FitsSetup(b, b.chart, setup, b.fs) && Runs(b, e, c)
    ensures BootsAsSetUp(b.chart, setup, b.imageMap, e, c)
  {
    var id, o := LayerOf(b.chart, e).id, ReadOf(c).value;
    hide LayerOf, ReadOf, Passed, MountsOf, TopicsFor, Controlled, Told;
    ImagesApart(b, id, o, id, o);
  }

  /** buildTopicMap and ResolveLayers: the pre-flight passes exactly the startable charts. */
  method CheckChart(chart: Chart, answers: Entry -> Result<string>, fs: Fs)
    returns (r: Result<()>, topicMap: map<string, string>, imageMap: map<string, string>)
    ensures r.Ok? <==> Startable(chart, answers, fs)
    ensures r.Ok? ==> Passed(chart, topicMap, imageMap) && ImagesOf(chart, answers, imageMap)
  {
    topicMap, imageMap := map[], map[];
    var topics := BuildTopicMap(chart);
    if topics.Err? {
      return Err(topics.error), topicMap, imageMap;
    }
    hide *;
    StartableExactly(chart, answers, topics.value, fs);
    var images := ResolveLayers(chart, answers, topics.value, fs);
    if images.Err? {
      return Err(images.error), topicMap, imageMap;
    }
    ChecksCarryOver(chart, answers, topics.value, images.value, fs);
    r, topicMap, imageMap := Ok(()), topics.value, images.value;
  }

  /** A start from the topics to the last kraft command; `before` and `later` are the file
      system at the pre-flight and at the boot loops. The pre-flight passes exactly the
      startable charts. Of these the boot loops get through exactly those whose soft links
      are all declared, and fail over nothing else; then each layer has its command. */
  method StartUp(chart: Chart, answers: Entry -> Result<string>, setup: Setup, before: Fs, later: Fs)
    returns (r: Result<seq<Command>>, passed: bool, ghost b: Boot, ghost entries: seq<Entry>)
    requires "/" <= setup.imageDir
    ensures passed <==> Startable(chart, answers, before)
    ensures r.Ok? <==> passed && AllSoftDeclared(chart)
    ensures passed && r.Err? ==> r.error.DataSourceUnknown? && UndeclaredIn(chart, r.error.link)
    ensures FitsSetup(b, chart, setup, later) && (r.Ok? ==> ImagesOf(chart, answers, b.imageMap))
    ensures r.Ok? ==> AllEntries(chart, entries) && Prepared(b, r.value, entries)
  {
    hide *;
    var checked, topicMap, imageMap := CheckChart(chart, answers, before);
    var boot := Boot(chart, topicMap, imageMap, later, setup.imageDir, setup.mqAddr, setup.volumeOf);
    entries, b, passed := [], boot, checked.Ok?;
    SetupIsTaken(chart, topicMap, imageMap, setup, later);
    if checked.Err? {
      return Err(checked.error), passed, b, entries;
    }
    r, entries := PrepareAll(boot);
  }

  lemma SetupIsTaken(chart: Chart, topicMap: map<string, string>, imageMap: map<string, string>, setup: Setup,
                   later: Fs)
    ensures FitsSetup(Boot(chart, topicMap, imageMap, later, setup.imageDir, setup.mqAddr, setup.volumeOf),
                  chart, setup, later)
  {
  }

  /** The pre-flight asks nothing of a soft link, while dataSourceMounts asks that it be
      declared: this layer passes the one, on any file system, and stops at the other. */
  lemma UndeclaredSoftLinkPasses(fs: Fs)
    ensures var links := Links(["cache"], [], []);
            LinksOk(links, map[], map[], fs) && !Declared(links.soft, map[])
  {
    assert "cache" in Links(["cache"], [], []).soft;
  }
}
