/**
 * The off-hours scaler of an ECS cluster. On "scale_down" every service
 * tagged OffHoursScaling=true is scaled to zero after its desired count has
 * been saved in a parameter; on "scale_up" the saved count is read back,
 * applied and the parameter deleted.
 *
 * ECS is reduced to the service listing, the service descriptions, a map
 * from service names to desired counts and a set of services on which
 * update_service errors. The parameter store is `Ssm.ParameterStore`.
 */
module OffHoursScaling {
  import opened Wrappers
  import Decimal
  import Ssm

  // ---------------------------------------------------------------------
  // Batches of at most ten (describe_services accepts ten names per call)
  // ---------------------------------------------------------------------

  const BatchSize: nat := 10

  function Min(a: int, b: int): int {
    if a <= b then a else b
  }

  /** `[s[i:i+10] for i in range(0, len(s), 10)]`. */
  function Batches<T>(s: seq<T>): seq<seq<T>> {
    seq((|s| + 9) / 10, k requires 0 <= k < (|s| + 9) / 10 => s[10 * k .. Min(10 * k + 10, |s|)])
  }

  /** Concatenation of a sequence of sequences, in order. */
  function Flatten<T>(ss: seq<seq<T>>): seq<T> {
    if |ss| == 0 then [] else Flatten(ss[..|ss| - 1]) + ss[|ss| - 1]
  }

  /** Every batch holds one to ten elements, and there are ceil(n/10) of them. */
  lemma BatchShape<T>(s: seq<T>)
    ensures forall k :: 0 <= k < |Batches(s)| ==> 1 <= |Batches(s)[k]| <= BatchSize
    ensures |Batches(s)| == 0 <==> |s| == 0
    ensures 10 * (|Batches(s)| - 1) < |s| <= 10 * |Batches(s)| || |s| == 0
  {
  }

  lemma {:induction false} FlattenBatchesPrefix<T>(s: seq<T>, k: nat)
    requires k <= |Batches(s)|
    ensures Flatten(Batches(s)[..k]) == s[..Min(10 * k, |s|)]
    decreases k
  {
    var b := Batches(s);
    if k > 0 {
      FlattenBatchesPrefix(s, k - 1);
      assert b[..k][..k - 1] == b[..k - 1];
      assert Flatten(b[..k]) == s[..10 * (k - 1)] + s[10 * (k - 1) .. Min(10 * k, |s|)];
    }
  }

  /** The batches concatenate back to the list they were cut from. */
  lemma FlattenBatches<T>(s: seq<T>)
    ensures Flatten(Batches(s)) == s
  {
    var b := Batches(s);
    FlattenBatchesPrefix(s, |b|);
    assert b[..|b|] == b;
  }

  // ---------------------------------------------------------------------
  // Service descriptions and the tag filter
  // ---------------------------------------------------------------------

  datatype Tag = Tag(key: string, value: string)

  /** One entry of describe_services; a missing tag list is the empty one. */
  datatype ServiceDescription = ServiceDescription(
    serviceArn: string,
    serviceName: Option<string>,
    desiredCount: nat,
    tags: seq<Tag>)

  /** One element of services_to_scale. */
  datatype Target = Target(serviceName: string, currentDesiredCount: nat, serviceArn: string)

  function LowerChar(c: char): char {
    if 'A' <= c <= 'Z' then (c as int + 32) as char else c
  }

  /** `str.lower()` on ASCII letters; other characters are kept. */
  function LowerAscii(s: string): string {
    seq(|s|, i requires 0 <= i < |s| => LowerChar(s[i]))
  }

  /** "true" in any mix of upper and lower case. */
  predicate IsTrueIgnoringCase(v: string) {
    && |v| == 4
    && (v[0] == 't' || v[0] == 'T')
    && (v[1] == 'r' || v[1] == 'R')
    && (v[2] == 'u' || v[2] == 'U')
    && (v[3] == 'e' || v[3] == 'E')
  }

  lemma LowerIsTrue(v: string)
    ensures LowerAscii(v) == "true" <==> IsTrueIgnoringCase(v)
  {
    if IsTrueIgnoringCase(v) {
      assert LowerAscii(v) == [LowerChar(v[0]), LowerChar(v[1]), LowerChar(v[2]), LowerChar(v[3])];
    }
    if LowerAscii(v) == "true" {
      var l := LowerAscii(v);
      assert l[0] == 't' && l[1] == 'r' && l[2] == 'u' && l[3] == 'e';
      assert LowerChar(v[0]) == 't' && LowerChar(v[1]) == 'r' && LowerChar(v[2]) == 'u' && LowerChar(v[3]) == 'e';
    }
  }

  predicate IsScalingTag(t: Tag) {
    t.key == "OffHoursScaling" && LowerAscii(t.value) == "true"
  }

  predicate EnablesScaling(tags: seq<Tag>) {
    exists k :: 0 <= k < |tags| && IsScalingTag(tags[k])
  }

  /** Scans the tags and stops at the first OffHoursScaling=true. */
  method TagEnablesScaling(tags: seq<Tag>) returns (enable: bool)
    ensures enable <==> EnablesScaling(tags)
  {
    enable := false;
    for i := 0 to |tags|
      invariant forall k :: 0 <= k < i ==> !IsScalingTag(tags[k])
    {
      if tags[i].key == "OffHoursScaling" && LowerAscii(tags[i].value) == "true" {
        enable := true;
        break;
      }
    }
  }

  /** A deployed service (it has a non-empty name) that opted in by tag. */
  predicate Selectable(d: ServiceDescription) {
    d.serviceName.Some? && d.serviceName.value != "" && EnablesScaling(d.tags)
  }

  function TargetOf(d: ServiceDescription): Target
    requires d.serviceName.Some?
  {
    Target(d.serviceName.value, d.desiredCount, d.serviceArn)
  }

  /** The services to scale, in the order they were described. */
  function Selected(ds: seq<ServiceDescription>): (ts: seq<Target>)
    ensures |ts| <= |ds|
  {
    if |ds| == 0 then []
    else
      var d := ds[|ds| - 1];
      Selected(ds[..|ds| - 1]) + (if Selectable(d) then [TargetOf(d)] else [])
  }

  /** A target comes from exactly a selectable description. */
  lemma {:induction false} SelectedMembers(ds: seq<ServiceDescription>, t: Target)
    ensures t in Selected(ds) <==> exists k :: 0 <= k < |ds| && Selectable(ds[k]) && TargetOf(ds[k]) == t
    decreases |ds|
  {
    if |ds| > 0 {
      var init := ds[..|ds| - 1];
      SelectedMembers(init, t);
      if t in Selected(init) {
        var k :| 0 <= k < |init| && Selectable(init[k]) && TargetOf(init[k]) == t;
        assert ds[k] == init[k];
      }
      if exists k :: 0 <= k < |ds| && Selectable(ds[k]) && TargetOf(ds[k]) == t {
        var k :| 0 <= k < |ds| && Selectable(ds[k]) && TargetOf(ds[k]) == t;
        if k < |init| {
          assert init[k] == ds[k];
        }
      }
    }
  }

  /** Filtering keeps the input order: it distributes over concatenation. */
  lemma {:induction false} SelectedAppend(a: seq<ServiceDescription>, b: seq<ServiceDescription>)
    ensures Selected(a + b) == Selected(a) + Selected(b)
    decreases |b|
  {
    if |b| == 0 {
      assert a + b == a;
    } else {
      var b' := b[..|b| - 1];
      assert (a + b)[..|a + b| - 1] == a + b';
      SelectedAppend(a, b');
    }
  }

  /** The filter loop of the handler. */
  method SelectServices(ds: seq<ServiceDescription>) returns (targets: seq<Target>)
    ensures targets == Selected(ds)
  {
    targets := [];
    for i := 0 to |ds|
      invariant targets == Selected(ds[..i])
    {
      assert ds[..i + 1][..i] == ds[..i];
      var d := ds[i];
      if d.serviceName.None? || d.serviceName.value == "" {
        continue;
      }
      var enable := TagEnablesScaling(d.tags);
      if enable {
        targets := targets + [TargetOf(d)];
      }
    }
    assert ds[..|ds|] == ds;
  }

  // ---------------------------------------------------------------------
  // The cluster
  // ---------------------------------------------------------------------

  /** What describe_services returns for some ARNs: the known ones, in order. */
  function Described(catalog: map<string, ServiceDescription>, arns: seq<string>): seq<ServiceDescription> {
    if |arns| == 0 then []
    else
      var a := arns[|arns| - 1];
      Described(catalog, arns[..|arns| - 1]) + (if a in catalog then [catalog[a]] else [])
  }

  lemma {:induction false} DescribedAppend(catalog: map<string, ServiceDescription>, a: seq<string>, b: seq<string>)
    ensures Described(catalog, a + b) == Described(catalog, a) + Described(catalog, b)
    decreases |b|
  {
    if |b| == 0 {
      assert a + b == a;
    } else {
      var b' := b[..|b| - 1];
      assert (a + b)[..|a + b| - 1] == a + b';
      DescribedAppend(catalog, a, b');
    }
  }

  /**
   * describe_services reports the live state: every named description in the
   * catalog carries the current desired count of the service it names.
   */
  predicate CatalogAgrees(catalog: map<string, ServiceDescription>, desired: map<string, nat>) {
    forall a :: a in catalog && catalog[a].serviceName.Some? ==>
      catalog[a].serviceName.value in desired && desired[catalog[a].serviceName.value] == catalog[a].desiredCount
  }

  /** Every description returned for some ARNs is the catalog's entry for one of them. */
  lemma {:induction false} DescribedFromCatalog(catalog: map<string, ServiceDescription>, arns: seq<string>, k: nat)
    requires k < |Described(catalog, arns)|
    ensures exists a :: a in catalog && Described(catalog, arns)[k] == catalog[a]
    decreases |arns|
  {
    var init := arns[..|arns| - 1];
    if k < |Described(catalog, init)| {
      DescribedFromCatalog(catalog, init, k);
    } else {
      var a := arns[|arns| - 1];
      assert Described(catalog, arns)[k] == catalog[a];
    }
  }

  /**
   * When the catalog reports the live state, every selected target's
   * described count is its service's current desired count.
   */
  lemma LiveTargets(catalog: map<string, ServiceDescription>, desired: map<string, nat>, arns: seq<string>, t: Target)
    requires CatalogAgrees(catalog, desired)
    requires t in Selected(Described(catalog, arns))
    ensures t.serviceName in desired && desired[t.serviceName] == t.currentDesiredCount
  {
    var ds := Described(catalog, arns);
    SelectedMembers(ds, t);
    var k :| 0 <= k < |ds| && Selectable(ds[k]) && TargetOf(ds[k]) == t;
    DescribedFromCatalog(catalog, arns, k);
  }

  /** update_service raises on an unknown service and on an unavailable one. */
  predicate UpdateAccepted(desired: map<string, nat>, unavailable: set<string>, name: string) {
    name in desired && name !in unavailable
  }

  class EcsCluster {
    var serviceArns: seq<string>
    var catalog: map<string, ServiceDescription>
    var desired: map<string, nat>
    var unavailable: set<string>
    /** The calls made so far, so that contracts can say which were not made. */
    var listCalls: nat
    var describeCalls: seq<seq<string>>

    constructor (serviceArns: seq<string>, catalog: map<string, ServiceDescription>,
                 desired: map<string, nat>, unavailable: set<string>)
      ensures this.serviceArns == serviceArns && this.catalog == catalog
      ensures this.desired == desired && this.unavailable == unavailable
      ensures listCalls == 0 && describeCalls == []
    {
      this.serviceArns := serviceArns;
      this.catalog := catalog;
      this.desired := desired;
      this.unavailable := unavailable;
      listCalls := 0;
      describeCalls := [];
    }

    method ListServices() returns (arns: seq<string>)
      modifies this`listCalls
      ensures arns == serviceArns
      ensures listCalls == old(listCalls) + 1
    {
      arns := serviceArns;
      listCalls := listCalls + 1;
    }

    method DescribeServices(chunk: seq<string>) returns (services: seq<ServiceDescription>)
      requires |chunk| <= BatchSize
      modifies this`describeCalls
      ensures services == Described(catalog, chunk)
      ensures describeCalls == old(describeCalls) + [chunk]
    {
      services := Described(catalog, chunk);
      describeCalls := describeCalls + [chunk];
    }

    method UpdateService(name: string, count: nat) returns (ok: bool)
      modifies this`desired
      ensures ok == UpdateAccepted(old(desired), unavailable, name)
      ensures desired == if ok then old(desired)[name := count] else old(desired)
    {
      ok := UpdateAccepted(desired, unavailable, name);
      if ok {
        desired := desired[name := count];
      }
    }
  }

  // ---------------------------------------------------------------------
  // Saving and restoring desired counts
  // ---------------------------------------------------------------------

  /** The state both scale functions change: saved counts and desired counts. */
  datatype Fleet = Fleet(params: map<string, Ssm.Parameter>, desired: map<string, nat>)

  /**
   * The names on which each call fails, fixed for one run: get_parameter,
   * put_parameter and delete_parameter on a parameter name, update_service
   * on a service name.
   */
  datatype Outages = Outages(getFails: set<string>, putFails: set<string>, deleteFails: set<string>, services: set<string>)

  function CountParameterName(app: string, service: string): string {
    "/" + app + "/ecs/" + service + "/original_desired_count"
  }

  /** Two services never share a saved-count parameter. */
  lemma CountParameterNameInjective(app: string, a: string, b: string)
    ensures CountParameterName(app, a) == CountParameterName(app, b) ==> a == b
  {
    var p := "/" + app + "/ecs/";
    var x := CountParameterName(app, a);
    assert x == p + a + "/original_desired_count";
    assert x[|p|..|p| + |a|] == a;
    if x == CountParameterName(app, b) {
      assert x == p + b + "/original_desired_count";
      assert |a| == |b|;
      assert x[|p|..|p| + |b|] == b;
    }
  }

  function CountDescription(service: string): string {
    "Original desired count for " + service + " before off-hours scaling"
  }

  /** The put_parameter call that saves a count: a String with Overwrite and no tags. */
  function CountRequest(app: string, t: Target): Ssm.PutRequest {
    Ssm.PutRequest(CountParameterName(app, t.serviceName), CountDescription(t.serviceName),
                   Decimal.NatToString(t.currentDesiredCount), Ssm.PlainString, true, None)
  }

  /** One service of scale_down_services: skip idle ones, save, then scale to zero. */
  function ScaleDownOne(f: Fleet, t: Target, app: string, out: Outages): (g: Fleet)
    ensures g.desired.Keys == f.desired.Keys && f.params.Keys <= g.params.Keys
    ensures forall s :: s in g.desired && s != t.serviceName ==> g.desired[s] == f.desired[s]
    ensures forall p :: p in f.params && p != CountParameterName(app, t.serviceName) ==> g.params[p] == f.params[p]
  {
    if t.currentDesiredCount == 0 then f
    else
      var req := CountRequest(app, t);
      if !Ssm.PutAccepted(f.params, out.putFails, req) then f
      else
        var params := Ssm.Stored(f.params, req);
        if UpdateAccepted(f.desired, out.services, t.serviceName) then Fleet(params, f.desired[t.serviceName := 0])
        else Fleet(params, f.desired)
  }

  function ScaleDownAll(f: Fleet, ts: seq<Target>, app: string, out: Outages): Fleet {
    if |ts| == 0 then f else ScaleDownOne(ScaleDownAll(f, ts[..|ts| - 1], app, out), ts[|ts| - 1], app, out)
  }

  /** The count a lookup restores: an unreadable, missing or unavailable one is 0. */
  function RestoredCount(l: Ssm.Lookup): (n: int)
    ensures n > 0 ==> l.Found? && Decimal.ParseInt(l.value) == Some(n)
    ensures !l.Found? ==> n == 0
    ensures l.Found? && Decimal.ParseInt(l.value).None? ==> n == 0
  {
    match l
    case Found(v) => (match Decimal.ParseInt(v) case Some(n) => n case None => 0)
    case NotFound => 0
    case Unavailable => 0
  }

  /**
   * One service of scale_up_services: restore a positive saved count, then
   * delete the parameter unless the update raised.
   */
  function ScaleUpOne(f: Fleet, service: string, app: string, out: Outages): (g: Fleet)
    ensures g.desired.Keys == f.desired.Keys && g.params.Keys <= f.params.Keys
    ensures forall s :: s in g.desired && s != service ==> g.desired[s] == f.desired[s]
    ensures forall p :: p in g.params ==> g.params[p] == f.params[p]
    ensures g.params.Keys >= f.params.Keys - {CountParameterName(app, service)}
  {
    var name := CountParameterName(app, service);
    var count := RestoredCount(Ssm.LookupIn(f.params, out.getFails, name));
    if count > 0 && !UpdateAccepted(f.desired, out.services, service) then f
    else
      var desired := if count > 0 then f.desired[service := count] else f.desired;
      var params := if Ssm.DeleteAccepted(f.params, out.deleteFails, name) then f.params - {name} else f.params;
      Fleet(params, desired)
  }

  function ScaleUpAll(f: Fleet, services: seq<string>, app: string, out: Outages): Fleet {
    if |services| == 0 then f
    else ScaleUpOne(ScaleUpAll(f, services[..|services| - 1], app, out), services[|services| - 1], app, out)
  }

  function Names(ts: seq<Target>): (names: seq<string>)
    ensures |names| == |ts|
    ensures forall k :: 0 <= k < |ts| ==> names[k] == ts[k].serviceName
  {
    seq(|ts|, k requires 0 <= k < |ts| => ts[k].serviceName)
  }

  /** Scaling down leaves idle services alone: with every count at 0 nothing changes. */
  lemma {:induction false} ScaleDownIdle(f: Fleet, ts: seq<Target>, app: string, out: Outages)
    requires forall k :: 0 <= k < |ts| ==> ts[k].currentDesiredCount == 0
    ensures ScaleDownAll(f, ts, app, out) == f
    decreases |ts|
  {
    if |ts| > 0 {
      ScaleDownIdle(f, ts[..|ts| - 1], app, out);
    }
  }

  /** Scaling down keeps every saved count and every service. */
  lemma {:induction false} ScaleDownKeeps(f: Fleet, ts: seq<Target>, app: string, out: Outages)
    ensures f.params.Keys <= ScaleDownAll(f, ts, app, out).params.Keys
    ensures ScaleDownAll(f, ts, app, out).desired.Keys == f.desired.Keys
    decreases |ts|
  {
    if |ts| > 0 {
      ScaleDownKeeps(f, ts[..|ts| - 1], app, out);
    }
  }

  /** Every target that names `service` is idle (a count of 0 is skipped). */
  predicate IdleIn(ts: seq<Target>, service: string) {
    forall k :: 0 <= k < |ts| && ts[k].serviceName == service ==> ts[k].currentDesiredCount == 0
  }

  /**
   * Scaling down leaves a service and its saved count alone when every
   * target naming it is idle, or when saving its count is rejected (the
   * update is only tried after the put went through), whatever happens to
   * the other services.
   */
  lemma {:induction false} ScaleDownLeavesAlone(f: Fleet, ts: seq<Target>, app: string, out: Outages, service: string)
    requires IdleIn(ts, service) || CountParameterName(app, service) in out.putFails
    ensures
      var g := ScaleDownAll(f, ts, app, out);
      var name := CountParameterName(app, service);
      && (service in g.desired <==> service in f.desired)
      && (service in f.desired ==> g.desired[service] == f.desired[service])
      && (name in g.params <==> name in f.params)
      && (name in f.params ==> g.params[name] == f.params[name])
    decreases |ts|
  {
    if |ts| > 0 {
      var init := ts[..|ts| - 1];
      var t := ts[|ts| - 1];
      assert IdleIn(init, service) || CountParameterName(app, service) in out.putFails by {
        if IdleIn(ts, service) {
          forall k | 0 <= k < |init| && init[k].serviceName == service
            ensures init[k].currentDesiredCount == 0
          {
            assert init[k] == ts[k];
          }
        }
      }
      ScaleDownLeavesAlone(f, init, app, out, service);
      CountParameterNameInjective(app, service, t.serviceName);
    }
  }

  /**
   * No service is brought from a positive count to zero by scaling down
   * unless its count has been saved first: its parameter then holds, as a
   * decimal string, the described count of a running target naming it (with
   * distinct names, the only target naming it).
   */
  lemma {:induction false} ScaleDownSavesFirst(f: Fleet, ts: seq<Target>, app: string, out: Outages, service: string)
    requires service in f.desired && f.desired[service] > 0
    requires service in ScaleDownAll(f, ts, app, out).desired && ScaleDownAll(f, ts, app, out).desired[service] == 0
    ensures
      var g := ScaleDownAll(f, ts, app, out);
      var name := CountParameterName(app, service);
      exists k :: 0 <= k < |ts| && ts[k].serviceName == service && ts[k].currentDesiredCount > 0
        && name in g.params && g.params[name].value == Decimal.NatToString(ts[k].currentDesiredCount)
    decreases |ts|
  {
    if |ts| > 0 {
      var init := ts[..|ts| - 1];
      var t := ts[|ts| - 1];
      var name := CountParameterName(app, service);
      ScaleDownKeeps(f, init, app, out);
      if t.serviceName == service && t.currentDesiredCount > 0 && name !in out.putFails {
        assert ts[|ts| - 1].serviceName == service;
      } else {
        CountParameterNameInjective(app, service, t.serviceName);
        ScaleDownSavesFirst(f, init, app, out, service);
        var g := ScaleDownAll(f, init, app, out);
        var k :| 0 <= k < |init| && init[k].serviceName == service && init[k].currentDesiredCount > 0
          && name in g.params && g.params[name].value == Decimal.NatToString(init[k].currentDesiredCount);
        assert ts[k] == init[k];
      }
    }
  }

  /**
   * A running target whose count is saved and whose update goes through
   * ends scaled down to 0, with its described count saved as a decimal
   * string (the names being distinct, no later target touches either).
   */
  lemma {:induction false} ScaleDownZeroes(f: Fleet, ts: seq<Target>, app: string, out: Outages, k: nat)
    requires DistinctNames(ts)
    requires k < |ts| && ts[k].currentDesiredCount > 0
    requires CountParameterName(app, ts[k].serviceName) !in out.putFails
    requires UpdateAccepted(f.desired, out.services, ts[k].serviceName)
    ensures
      var g := ScaleDownAll(f, ts, app, out);
      var name := CountParameterName(app, ts[k].serviceName);
      && ts[k].serviceName in g.desired && g.desired[ts[k].serviceName] == 0
      && name in g.params && g.params[name].value == Decimal.NatToString(ts[k].currentDesiredCount)
    decreases |ts|
  {
    var init := ts[..|ts| - 1];
    var t := ts[|ts| - 1];
    ScaleDownKeeps(f, init, app, out);
    if k < |ts| - 1 {
      assert init[k] == ts[k];
      ScaleDownZeroes(f, init, app, out, k);
      CountParameterNameInjective(app, ts[k].serviceName, t.serviceName);
    }
  }

  /** Scaling up only sets counts to positive values, and only removes saved counts. */
  lemma {:induction false} ScaleUpOnlyRestores(f: Fleet, services: seq<string>, app: string, out: Outages)
    ensures
      var g := ScaleUpAll(f, services, app, out);
      && g.desired.Keys == f.desired.Keys
      && (forall s :: s in g.desired ==> g.desired[s] == f.desired[s] || g.desired[s] > 0)
      && g.params.Keys <= f.params.Keys
      && (forall p :: p in g.params ==> g.params[p] == f.params[p])
    decreases |services|
  {
    if |services| > 0 {
      ScaleUpOnlyRestores(f, services[..|services| - 1], app, out);
    }
  }

  /** A service without a saved count stays where it is when scaling up. */
  lemma {:induction false} ScaleUpWithoutSavedCount(f: Fleet, services: seq<string>, app: string, out: Outages, service: string)
    requires CountParameterName(app, service) !in f.params
    requires service in f.desired
    ensures CountParameterName(app, service) !in ScaleUpAll(f, services, app, out).params
    ensures service in ScaleUpAll(f, services, app, out).desired
    ensures ScaleUpAll(f, services, app, out).desired[service] == f.desired[service]
    decreases |services|
  {
    if |services| > 0 {
      var init := services[..|services| - 1];
      ScaleUpWithoutSavedCount(f, init, app, out, service);
      ScaleUpOnlyRestores(f, init, app, out);
      CountParameterNameInjective(app, service, services[|services| - 1]);
    }
  }

  /**
   * When restoring a saved count fails (the update raises), scaling up keeps
   * the saved parameter and leaves the count as it was.
   */
  lemma {:induction false} ScaleUpKeepsOnFailedUpdate(f: Fleet, services: seq<string>, app: string, out: Outages, service: string)
    requires !UpdateAccepted(f.desired, out.services, service)
    requires RestoredCount(Ssm.LookupIn(f.params, out.getFails, CountParameterName(app, service))) > 0
    ensures
      var g := ScaleUpAll(f, services, app, out);
      var name := CountParameterName(app, service);
      && name in g.params && name in f.params && g.params[name] == f.params[name]
      && (service in f.desired ==> service in g.desired && g.desired[service] == f.desired[service])
    decreases |services|
  {
    if |services| > 0 {
      var init := services[..|services| - 1];
      ScaleUpKeepsOnFailedUpdate(f, init, app, out, service);
      ScaleUpOnlyRestores(f, init, app, out);
      CountParameterNameInjective(app, service, services[|services| - 1]);
    }
  }

  /**
   * When reading a saved count fails, scaling up restores nothing (the count
   * reads as 0) and then deletes the parameter: the saved count is lost and
   * the service stays where scaling down left it.
   */
  lemma {:induction false} ScaleUpLosesUnreadCount(f: Fleet, services: seq<string>, app: string, out: Outages, service: string)
    requires CountParameterName(app, service) in out.getFails
    requires CountParameterName(app, service) !in out.deleteFails
    ensures
      var g := ScaleUpAll(f, services, app, out);
      && (service in g.desired <==> service in f.desired)
      && (service in f.desired ==> g.desired[service] == f.desired[service])
      && (service in services ==> CountParameterName(app, service) !in g.params)
    decreases |services|
  {
    if |services| > 0 {
      var init := services[..|services| - 1];
      var last := services[|services| - 1];
      ScaleUpLosesUnreadCount(f, init, app, out, service);
      CountParameterNameInjective(app, service, last);
      if service in services && last != service {
        assert service in init by {
          var k :| 0 <= k < |services| && services[k] == service;
          assert init[k] == service;
        }
      }
    }
  }

  /** Scaling up other services leaves a service's desired count and its saved count alone. */
  lemma {:induction false} ScaleUpAllElsewhere(f: Fleet, services: seq<string>, app: string, out: Outages, service: string)
    requires service !in services
    ensures
      var g := ScaleUpAll(f, services, app, out);
      var name := CountParameterName(app, service);
      && (service in g.desired <==> service in f.desired)
      && (service in f.desired ==> g.desired[service] == f.desired[service])
      && (name in g.params <==> name in f.params)
      && (name in f.params ==> g.params[name] == f.params[name])
    decreases |services|
  {
    if |services| > 0 {
      var init := services[..|services| - 1];
      assert service !in init by {
        forall i | 0 <= i < |init|
          ensures init[i] != service
        {
          assert init[i] == services[i];
        }
      }
      ScaleUpAllElsewhere(f, init, app, out, service);
      CountParameterNameInjective(app, service, services[|services| - 1]);
    }
  }

  /**
   * Scaling up service k, named once in the list, restores the count it read
   * when that count is positive and the update goes through, restores
   * nothing when the count reads as 0 or less (a missing, unreadable or
   * unparseable value), and in both cases then deletes the saved count.
   */
  lemma {:induction false} ScaleUpRestores(f: Fleet, services: seq<string>, app: string, out: Outages, k: nat)
    requires forall i, j :: 0 <= i < j < |services| ==> services[i] != services[j]
    requires k < |services|
    requires var c := RestoredCount(Ssm.LookupIn(f.params, out.getFails, CountParameterName(app, services[k])));
      !(c > 0 && !UpdateAccepted(f.desired, out.services, services[k]))
    ensures
      var g := ScaleUpAll(f, services, app, out);
      var name := CountParameterName(app, services[k]);
      var c := RestoredCount(Ssm.LookupIn(f.params, out.getFails, name));
      && (Ssm.DeleteAccepted(f.params, out.deleteFails, name) ==> name !in g.params)
      && (!Ssm.DeleteAccepted(f.params, out.deleteFails, name) ==>
            (name in g.params <==> name in f.params) && (name in f.params ==> g.params[name] == f.params[name]))
      && (c > 0 ==> services[k] in g.desired && g.desired[services[k]] == c)
      && (c <= 0 ==> (services[k] in g.desired <==> services[k] in f.desired)
                     && (services[k] in f.desired ==> g.desired[services[k]] == f.desired[services[k]]))
    decreases |services|
  {
    var init := services[..|services| - 1];
    var last := services[|services| - 1];
    var name := CountParameterName(app, services[k]);
    var h := ScaleUpAll(f, init, app, out);
    if k == |services| - 1 {
      assert last !in init by {
        forall i | 0 <= i < |init|
          ensures init[i] != last
        {
          assert init[i] == services[i];
        }
      }
      ScaleUpAllElsewhere(f, init, app, out, last);
      assert Ssm.LookupIn(h.params, out.getFails, name) == Ssm.LookupIn(f.params, out.getFails, name);
      assert Ssm.DeleteAccepted(h.params, out.deleteFails, name) == Ssm.DeleteAccepted(f.params, out.deleteFails, name);
      assert UpdateAccepted(h.desired, out.services, last) == UpdateAccepted(f.desired, out.services, last);
    } else {
      assert init[k] == services[k];
      ScaleUpRestores(f, init, app, out, k);
      CountParameterNameInjective(app, services[k], last);
    }
  }

  /** What a full round trip needs of one service: no failing call, and nothing saved yet. */
  predicate Restorable(f: Fleet, t: Target, app: string, out: Outages) {
    && CountParameterName(app, t.serviceName) !in out.getFails + out.putFails + out.deleteFails
    && CountParameterName(app, t.serviceName) !in f.params
    && t.serviceName !in out.services
    && t.serviceName in f.desired
    && f.desired[t.serviceName] == t.currentDesiredCount
  }

  /** Scale down then scale up of one service gives back the state it started from. */
  lemma RoundTripOne(f: Fleet, t: Target, app: string, out: Outages)
    requires Restorable(f, t, app, out)
    ensures ScaleUpOne(ScaleDownOne(f, t, app, out), t.serviceName, app, out) == f
  {
    var name := CountParameterName(app, t.serviceName);
    if t.currentDesiredCount > 0 {
      Decimal.ParseIntOfNatToString(t.currentDesiredCount);
      var g := ScaleDownOne(f, t, app, out);
      assert g.params[name].value == Decimal.NatToString(t.currentDesiredCount);
      assert g.params - {name} == f.params;
      assert f.desired[t.serviceName := 0][t.serviceName := t.currentDesiredCount] == f.desired;
    }
  }

  /** Work on two different services can be done in either order. */
  lemma ScaleUpDownCommute(g: Fleet, t: Target, service: string, app: string, out: Outages)
    requires service != t.serviceName
    ensures ScaleUpOne(ScaleDownOne(g, t, app, out), service, app, out)
         == ScaleDownOne(ScaleUpOne(g, service, app, out), t, app, out)
  {
    if t.currentDesiredCount > 0 && CountParameterName(app, t.serviceName) !in out.putFails {
      ScaleUpSavedCommute(g, t, service, app, out);
    }
  }

  /** The case of ScaleUpDownCommute where scaling down saves the count of `t`. */
  lemma ScaleUpSavedCommute(g: Fleet, t: Target, service: string, app: string, out: Outages)
    requires service != t.serviceName
    requires t.currentDesiredCount > 0 && CountParameterName(app, t.serviceName) !in out.putFails
    ensures ScaleUpOne(ScaleDownOne(g, t, app, out), service, app, out)
         == ScaleDownOne(ScaleUpOne(g, service, app, out), t, app, out)
  {
    CountParameterNameInjective(app, service, t.serviceName);
    var pt := CountParameterName(app, t.serviceName);
    var pu := CountParameterName(app, service);
    var d := ScaleDownOne(g, t, app, out);
    // Scaling t down touches only the parameter pt and the count of t, so scaling `service` up decides alike.
    assert d.params == g.params[pt := Ssm.Stored(g.params, CountRequest(app, t))[pt]];
    assert Ssm.LookupIn(d.params, out.getFails, pu) == Ssm.LookupIn(g.params, out.getFails, pu);
    assert UpdateAccepted(d.desired, out.services, service) == UpdateAccepted(g.desired, out.services, service);
    var count := RestoredCount(Ssm.LookupIn(g.params, out.getFails, pu));
    if count > 0 && !UpdateAccepted(g.desired, out.services, service) {
      assert ScaleUpOne(g, service, app, out) == g;
    } else {
      ScaleUpChangedCommute(g, t, service, app, out);
    }
  }

  // The next three lemmas restate the two steps as map edits; they are proof helpers for the commutation lemmas.

  /** A scale-down step that saves its count, written as the two edits it makes. */
  lemma ScaleDownOneEdits(f: Fleet, t: Target, app: string, out: Outages)
    requires t.currentDesiredCount > 0 && CountParameterName(app, t.serviceName) !in out.putFails
    ensures var pt := CountParameterName(app, t.serviceName);
      ScaleDownOne(f, t, app, out)
      == Fleet(f.params[pt := Ssm.Stored(f.params, CountRequest(app, t))[pt]],
               if UpdateAccepted(f.desired, out.services, t.serviceName) then f.desired[t.serviceName := 0] else f.desired)
  {
  }

  /** A scale-up step that is not held back by a failed update, written as the two edits it makes. */
  lemma ScaleUpOneEdits(f: Fleet, service: string, app: string, out: Outages)
    requires var count := RestoredCount(Ssm.LookupIn(f.params, out.getFails, CountParameterName(app, service)));
      !(count > 0 && !UpdateAccepted(f.desired, out.services, service))
    ensures var pu := CountParameterName(app, service);
      var count := RestoredCount(Ssm.LookupIn(f.params, out.getFails, pu));
      ScaleUpOne(f, service, app, out)
      == Fleet(if Ssm.DeleteAccepted(f.params, out.deleteFails, pu) then f.params - {pu} else f.params,
               if count > 0 then f.desired[service := count] else f.desired)
  {
  }

  /** Saving one count and restoring another touch different keys, so the order of the edits does not matter. */
  lemma EditsCommute(params: map<string, Ssm.Parameter>, desired: map<string, nat>, pt: string, saved: Ssm.Parameter,
                     pu: string, remove: bool, t: string, zero: bool, service: string, count: int)
    requires pt != pu && t != service
    ensures (if remove then params[pt := saved] - {pu} else params[pt := saved])
         == (if remove then params - {pu} else params)[pt := saved]
    ensures var up := if count > 0 then desired[service := count] else desired;
      (if count > 0 then (if zero then desired[t := 0] else desired)[service := count]
       else if zero then desired[t := 0] else desired)
      == (if zero then up[t := 0] else up)
  {
  }

  /** Scaling `service` up after `t` was scaled down and its count saved. */
  lemma ScaleDownThenUp(g: Fleet, t: Target, service: string, app: string, out: Outages)
    requires service != t.serviceName
    requires t.currentDesiredCount > 0 && CountParameterName(app, t.serviceName) !in out.putFails
    requires var count := RestoredCount(Ssm.LookupIn(g.params, out.getFails, CountParameterName(app, service)));
      !(count > 0 && !UpdateAccepted(g.desired, out.services, service))
    ensures var pt := CountParameterName(app, t.serviceName);
      var pu := CountParameterName(app, service);
      var count := RestoredCount(Ssm.LookupIn(g.params, out.getFails, pu));
      var down := if UpdateAccepted(g.desired, out.services, t.serviceName) then g.desired[t.serviceName := 0] else g.desired;
      var params := g.params[pt := Ssm.Stored(g.params, CountRequest(app, t))[pt]];
      ScaleUpOne(ScaleDownOne(g, t, app, out), service, app, out)
      == Fleet(if Ssm.DeleteAccepted(g.params, out.deleteFails, pu) then params - {pu} else params,
               if count > 0 then down[service := count] else down)
  {
    CountParameterNameInjective(app, service, t.serviceName);
    var pu := CountParameterName(app, service);
    ScaleDownOneEdits(g, t, app, out);
    var d := ScaleDownOne(g, t, app, out);
    assert Ssm.LookupIn(d.params, out.getFails, pu) == Ssm.LookupIn(g.params, out.getFails, pu);
    assert Ssm.DeleteAccepted(d.params, out.deleteFails, pu) == Ssm.DeleteAccepted(g.params, out.deleteFails, pu);
    assert UpdateAccepted(d.desired, out.services, service) == UpdateAccepted(g.desired, out.services, service);
    ScaleUpOneEdits(d, service, app, out);
  }

  /** Scaling `t` down, saving its count, after `service` was scaled up. */
  lemma ScaleUpThenDown(g: Fleet, t: Target, service: string, app: string, out: Outages)
    requires service != t.serviceName
    requires t.currentDesiredCount > 0 && CountParameterName(app, t.serviceName) !in out.putFails
    requires var count := RestoredCount(Ssm.LookupIn(g.params, out.getFails, CountParameterName(app, service)));
      !(count > 0 && !UpdateAccepted(g.desired, out.services, service))
    ensures var pt := CountParameterName(app, t.serviceName);
      var pu := CountParameterName(app, service);
      var count := RestoredCount(Ssm.LookupIn(g.params, out.getFails, pu));
      var up := if count > 0 then g.desired[service := count] else g.desired;
      var params := if Ssm.DeleteAccepted(g.params, out.deleteFails, pu) then g.params - {pu} else g.params;
      ScaleDownOne(ScaleUpOne(g, service, app, out), t, app, out)
      == Fleet(params[pt := Ssm.Stored(g.params, CountRequest(app, t))[pt]],
               if UpdateAccepted(g.desired, out.services, t.serviceName) then up[t.serviceName := 0] else up)
  {
    CountParameterNameInjective(app, service, t.serviceName);
    var pt := CountParameterName(app, t.serviceName);
    ScaleUpOneEdits(g, service, app, out);
    var u := ScaleUpOne(g, service, app, out);
    ScaleDownOneEdits(u, t, app, out);
    assert Ssm.Stored(u.params, CountRequest(app, t))[pt] == Ssm.Stored(g.params, CountRequest(app, t))[pt];
    assert UpdateAccepted(u.desired, out.services, t.serviceName) == UpdateAccepted(g.desired, out.services, t.serviceName);
  }

  /** The case of ScaleUpSavedCommute where scaling `service` up restores or deletes something. */
  lemma ScaleUpChangedCommute(g: Fleet, t: Target, service: string, app: string, out: Outages)
    requires service != t.serviceName
    requires t.currentDesiredCount > 0 && CountParameterName(app, t.serviceName) !in out.putFails
    requires var count := RestoredCount(Ssm.LookupIn(g.params, out.getFails, CountParameterName(app, service)));
      !(count > 0 && !UpdateAccepted(g.desired, out.services, service))
    ensures ScaleUpOne(ScaleDownOne(g, t, app, out), service, app, out)
         == ScaleDownOne(ScaleUpOne(g, service, app, out), t, app, out)
  {
    CountParameterNameInjective(app, service, t.serviceName);
    var pt := CountParameterName(app, t.serviceName);
    var pu := CountParameterName(app, service);
    ScaleDownThenUp(g, t, service, app, out);
    ScaleUpThenDown(g, t, service, app, out);
    EditsCommute(g.params, g.desired, pt, Ssm.Stored(g.params, CountRequest(app, t))[pt],
                 pu, Ssm.DeleteAccepted(g.params, out.deleteFails, pu),
                 t.serviceName, UpdateAccepted(g.desired, out.services, t.serviceName),
                 service, RestoredCount(Ssm.LookupIn(g.params, out.getFails, pu)));
  }

  lemma {:induction false} ScaleUpAllDownCommute(g: Fleet, t: Target, services: seq<string>, app: string, out: Outages)
    requires t.serviceName !in services
    ensures ScaleUpAll(ScaleDownOne(g, t, app, out), services, app, out)
         == ScaleDownOne(ScaleUpAll(g, services, app, out), t, app, out)
    decreases |services|
  {
    if |services| > 0 {
      var init := services[..|services| - 1];
      var last := services[|services| - 1];
      ScaleUpAllDownCommute(g, t, init, app, out);
      ScaleUpDownCommute(ScaleUpAll(g, init, app, out), t, last, app, out);
    }
  }

  predicate DistinctNames(ts: seq<Target>) {
    forall i, j :: 0 <= i < j < |ts| ==> ts[i].serviceName != ts[j].serviceName
  }

  /**
   * Scaling the selected services down and then, in a later run, the same
   * services up restores every desired count and leaves no saved parameter,
   * provided no call fails, no count was saved before, and each target's
   * described count is its live desired count (`Restorable`).
   */
  lemma {:induction false} RoundTrip(f: Fleet, ts: seq<Target>, app: string, out: Outages)
    requires DistinctNames(ts)
    requires forall k :: 0 <= k < |ts| ==> Restorable(f, ts[k], app, out)
    ensures ScaleUpAll(ScaleDownAll(f, ts, app, out), Names(ts), app, out) == f
    decreases |ts|
  {
    if |ts| > 0 {
      var init := ts[..|ts| - 1];
      var t := ts[|ts| - 1];
      assert Names(ts)[..|ts| - 1] == Names(init);
      assert t.serviceName !in Names(init) by {
        forall k | 0 <= k < |init|
          ensures Names(init)[k] != t.serviceName
        {
          assert init[k] == ts[k];
        }
      }
      RoundTrip(f, init, app, out);
      ScaleUpAllDownCommute(ScaleDownAll(f, init, app, out), t, Names(init), app, out);
      RoundTripOne(f, t, app, out);
    }
  }

  /** scale_down_services. */
  method ScaleDownServices(ecs: EcsCluster, store: Ssm.ParameterStore, services: seq<Target>, app: string)
    returns (r: Response)
    modifies ecs`desired, store`params
    ensures Fleet(store.params, ecs.desired)
         == ScaleDownAll(Fleet(old(store.params), old(ecs.desired)), services, app, Outages(store.getFails, store.putFails, store.deleteFails, ecs.unavailable))
    ensures r == Response(200, "Scale down operation completed")
  {
    ghost var f0 := Fleet(store.params, ecs.desired);
    ghost var out := Outages(store.getFails, store.putFails, store.deleteFails, ecs.unavailable);
    for i := 0 to |services|
      invariant Fleet(store.params, ecs.desired) == ScaleDownAll(f0, services[..i], app, out)
    {
      assert services[..i + 1][..i] == services[..i];
      var t := services[i];
      if t.currentDesiredCount == 0 {
        continue;
      }
      var stored := store.PutParameter(CountRequest(app, t));
      if !stored {
        continue;
      }
      var scaled := ecs.UpdateService(t.serviceName, 0);
    }
    assert services[..|services|] == services;
    r := Response(200, "Scale down operation completed");
  }

  /** scale_up_services. */
  method ScaleUpServices(ecs: EcsCluster, store: Ssm.ParameterStore, services: seq<Target>, app: string)
    returns (r: Response)
    modifies ecs`desired, store`params
    ensures Fleet(store.params, ecs.desired)
         == ScaleUpAll(Fleet(old(store.params), old(ecs.desired)), Names(services), app, Outages(store.getFails, store.putFails, store.deleteFails, ecs.unavailable))
    ensures r == Response(200, "Scale up operation completed")
  {
    ghost var f0 := Fleet(store.params, ecs.desired);
    ghost var out := Outages(store.getFails, store.putFails, store.deleteFails, ecs.unavailable);
    for i := 0 to |services|
      invariant Fleet(store.params, ecs.desired) == ScaleUpAll(f0, Names(services)[..i], app, out)
    {
      assert Names(services)[..i + 1][..i] == Names(services)[..i];
      var service := services[i].serviceName;
      var name := CountParameterName(app, service);
      var lookup := store.GetParameter(name);
      var count: int := 0;
      if lookup.Found? {
        var parsed := Decimal.ParseInt(lookup.value);
        if parsed.Some? {
          count := parsed.value;
        }
      }
      var updated := true;
      if count > 0 {
        updated := ecs.UpdateService(service, count);
      }
      if updated {
        var deleted := store.DeleteParameter(name);
      }
    }
    assert Names(services)[..|services|] == Names(services);
    r := Response(200, "Scale up operation completed");
  }

  /** One describe_services call per chunk, gathering the descriptions in order. */
  method DescribeChunks(ecs: EcsCluster, chunks: seq<seq<string>>) returns (details: seq<ServiceDescription>)
    requires forall k :: 0 <= k < |chunks| ==> |chunks[k]| <= BatchSize
    modifies ecs`describeCalls
    ensures details == Described(ecs.catalog, Flatten(chunks))
    ensures ecs.describeCalls == old(ecs.describeCalls) + chunks
  {
    details := [];
    for i := 0 to |chunks|
      invariant details == Described(ecs.catalog, Flatten(chunks[..i]))
      invariant ecs.describeCalls == old(ecs.describeCalls) + chunks[..i]
    {
      assert chunks[..i + 1][..i] == chunks[..i];
      var part := ecs.DescribeServices(chunks[i]);
      DescribedAppend(ecs.catalog, Flatten(chunks[..i]), chunks[i]);
      details := details + part;
    }
    assert chunks[..|chunks|] == chunks;
  }

  /** Describes `arns` ten at a time. */
  method DescribeAll(ecs: EcsCluster, arns: seq<string>) returns (details: seq<ServiceDescription>)
    modifies ecs`describeCalls
    ensures details == Described(ecs.catalog, arns)
    ensures ecs.describeCalls == old(ecs.describeCalls) + Batches(arns)
  {
    BatchShape(arns);
    details := DescribeChunks(ecs, Batches(arns));
    FlattenBatches(arns);
  }

  // ---------------------------------------------------------------------
  // The handler
  // ---------------------------------------------------------------------

  /** The response before JSON encoding of the body. */
  datatype Response = Response(statusCode: int, body: string)

  /** The ValueError raised, outside the handler's try, on a missing action. */
  datatype ScalingError = MissingAction

  /** lambda_handler; `action` is the event's "action" entry, `app` the APP_NAME variable. */
  method HandleScaling(action: Option<string>, ecs: EcsCluster, store: Ssm.ParameterStore, app: string)
    returns (r: Result<Response, ScalingError>)
    requires CatalogAgrees(ecs.catalog, ecs.desired)
    modifies ecs`listCalls, ecs`describeCalls, ecs`desired, store`params
    // No action: raise before any call.
    ensures action.None? || action.value == "" ==>
      && r == Failure(MissingAction)
      && ecs.listCalls == old(ecs.listCalls) && ecs.describeCalls == old(ecs.describeCalls)
      && ecs.desired == old(ecs.desired) && store.params == old(store.params)
    ensures r.Failure? ==> action.None? || action.value == ""
    // Otherwise the services are listed once.
    ensures action.Some? && action.value != "" ==> ecs.listCalls == old(ecs.listCalls) + 1
    // An empty cluster: nothing is described and nothing changes.
    ensures action.Some? && action.value != "" && |ecs.serviceArns| == 0 ==>
      && r == Success(Response(200, "No services to scale"))
      && ecs.describeCalls == old(ecs.describeCalls)
      && ecs.desired == old(ecs.desired) && store.params == old(store.params)
    // Otherwise every service is described, ten at a time, and the opted-in ones are scaled.
    ensures action.Some? && action.value != "" && |ecs.serviceArns| > 0 ==>
      var targets := Selected(Described(ecs.catalog, ecs.serviceArns));
      var f0 := Fleet(old(store.params), old(ecs.desired));
      var out := Outages(store.getFails, store.putFails, store.deleteFails, ecs.unavailable);
      && ecs.describeCalls == old(ecs.describeCalls) + Batches(ecs.serviceArns)
      && (action.value == "scale_down" ==>
            && r == Success(Response(200, "Scale down operation completed"))
            && Fleet(store.params, ecs.desired) == ScaleDownAll(f0, targets, app, out))
      && (action.value == "scale_up" ==>
            && r == Success(Response(200, "Scale up operation completed"))
            && Fleet(store.params, ecs.desired) == ScaleUpAll(f0, Names(targets), app, out))
      && (action.value != "scale_down" && action.value != "scale_up" ==>
            && r == Success(Response(500, "Error: Invalid action: " + action.value))
            && ecs.desired == old(ecs.desired) && store.params == old(store.params))
  {
    if action.None? || action.value == "" {
      return Failure(MissingAction);
    }
    var serviceArns := ecs.ListServices();
    if |serviceArns| == 0 {
      return Success(Response(200, "No services to scale"));
    }

    var details := DescribeAll(ecs, serviceArns);
    var servicesToScale := SelectServices(details);
    if action.value == "scale_down" {
      var response := ScaleDownServices(ecs, store, servicesToScale, app);
      return Success(response);
    } else if action.value == "scale_up" {
      var response := ScaleUpServices(ecs, store, servicesToScale, app);
      return Success(response);
    }
    return Success(Response(500, "Error: Invalid action: " + action.value));
  }
}
