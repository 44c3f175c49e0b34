/** The panel's record of what its fleet should be running, and the differences
    between that record and what a node reports. */
module DesiredState {

  // ---- text ----

  /** Go's string order. */
  predicate Less(a: string, b: string)
  {
    if b == "" then false
    else if a == "" then true
    else if a[0] != b[0] then a[0] < b[0]
    else Less(a[1..], b[1..])
  }

  lemma {:induction false} LessTotal(a: string, b: string)
    ensures Less(a, b) ==> a != b && !Less(b, a)
    ensures Less(a, b) || a == b || Less(b, a)
  {
    if a != "" && b != "" && a[0] == b[0] {
      LessTotal(a[1..], b[1..]);
      assert a == [a[0]] + a[1..] && b == [b[0]] + b[1..];
    }
  }

  lemma {:induction false} LessTransitive(a: string, b: string, c: string)
    requires Less(a, b) && Less(b, c)
    ensures Less(a, c)
  {
    if a != "" && a[0] == b[0] == c[0] { LessTransitive(a[1..], b[1..], c[1..]); }
  }

  /** The order of strings is the order of the first characters that differ, and a
      text comes before its continuations. */
  lemma {:induction false} LessMeans(p: string, x: char, q: string, y: char, r: string)
    ensures x < y ==> Less(p + [x] + q, p + [y] + r)
    ensures Less(p, p + [x] + q)
  {
    if p == [] {
      assert p + [x] + q == [x] + q && p + [y] + r == [y] + r;
    } else {
      LessMeans(p[1..], x, q, y, r);
      assert (p + [x] + q)[1..] == p[1..] + [x] + q && (p + [y] + r)[1..] == p[1..] + [y] + r;
    }
  }

  function Fold(c: char): char { if 'A' <= c <= 'Z' then ((c as int) + 32) as char else c }

  predicate EqualFold(a: string, b: string) { |a| == |b| && forall i :: 0 <= i < |a| ==> Fold(a[i]) == Fold(b[i]) }

  /** The small letter of a capital. */
  predicate CaseOf(capital: char, small: char) { 'A' <= capital <= 'Z' && small as int == capital as int + 32 }

  /** Two texts are the same but for the case of their letters. */
  lemma EqualFoldMeans(a: string, b: string)
    ensures EqualFold(a, b) <==> |a| == |b| && forall i :: 0 <= i < |a| ==>
      a[i] == b[i] || CaseOf(a[i], b[i]) || CaseOf(b[i], a[i])
  {
  }

  // ---- intents, states and drift ----

  datatype Intent = Intent(name: string, role: string, port: string, running: bool, recorded: int)

  datatype State = State(name: string, role: string, port: string, active: bool)

  datatype Kind = Missing | Stopped | Running | Changed | Unexpected

  function KindText(k: Kind): string
  {
    match k
    case Missing => "missing"
    case Stopped => "stopped"
    case Running => "running"
    case Changed => "changed"
    case Unexpected => "unexpected"
  }

  /** What the sentence an operator reads says differs. */
  datatype Detail =
    | Gone
    | Ports(want: string, got: string)
    | Roles(wanted: string, held: string)
    | NotRunning
    | StillRunning
    | NotOurs

  datatype Drift = Drift(node: string, tunnel: string, kind: Kind, detail: Detail)

  type Intents = map<string, Intent>
  type States = map<string, State>
  type Fleet = map<string, Intents>

  function Expected(fleet: Fleet, node: string): Intents { if node in fleet then fleet[node] else map[] }

  /** The report indexed by name; a repeated name keeps its last entry. */
  function Reported(actual: seq<State>): States
  {
    if actual == [] then map[] else
      var last := actual[|actual| - 1];
      Reported(actual[..|actual| - 1])[last.name := last]
  }

  predicate PortsDiffer(w: Intent, got: State) { w.port != "" && got.port != "" && w.port != got.port }

  predicate RolesDiffer(w: Intent, got: State) { w.role != "" && got.role != "" && !EqualFold(w.role, got.role) }

  /** The differences of a tunnel that is on both sides. */
  function Differences(node: string, name: string, w: Intent, got: State): seq<Drift>
  {
    (if PortsDiffer(w, got) then [Drift(node, name, Changed, Ports(w.port, got.port))] else [])
    + (if RolesDiffer(w, got) then [Drift(node, name, Changed, Roles(w.role, got.role))] else [])
    + (if w.running && !got.active then [Drift(node, name, Stopped, NotRunning)]
       else if !w.running && got.active then [Drift(node, name, Running, StillRunning)]
       else [])
  }

  /** Everything there is to say about one tunnel name. */
  function DriftsFor(node: string, want: Intents, have: States, name: string): (ds: seq<Drift>)
    ensures forall d :: d in ds ==> d.tunnel == name && d.node == node
  {
    if name in want then
      if name in have then Differences(node, name, want[name], have[name])
      else [Drift(node, name, Missing, Gone)]
    else if name in have then [Drift(node, name, Unexpected, NotOurs)]
    else []
  }

  predicate Before(a: Drift, b: Drift)
  {
    if a.tunnel != b.tunnel then Less(a.tunnel, b.tunnel) else Less(KindText(a.kind), KindText(b.kind))
  }

  /** What sort.Slice leaves: no entry before an earlier one; equals in any order. */
  ghost predicate Sorted(out: seq<Drift>) { forall i, j :: 0 <= i < j < |out| ==> !Before(out[j], out[i]) }

  /** The drifts of these tunnel names, each as often as it should be, and no others. */
  ghost predicate Covers(out: seq<Drift>, node: string, want: Intents, have: States, names: set<string>)
  {
    forall d :: multiset(out)[d] == if d.tunnel in names then multiset(DriftsFor(node, want, have, d.tunnel))[d] else 0
  }

  /** A correct answer of Reconcile. */
  ghost predicate IsReport(out: seq<Drift>, node: string, want: Intents, have: States)
  {
    Sorted(out) && Covers(out, node, want, have, want.Keys + have.Keys)
  }

  lemma CoversMore(out: seq<Drift>, node: string, want: Intents, have: States, names: set<string>, name: string)
    requires Covers(out, node, want, have, names) && name !in names
    ensures Covers(out + DriftsFor(node, want, have, name), node, want, have, names + {name})
  {
    hide DriftsFor;
    var more := DriftsFor(node, want, have, name);
    forall d
      ensures multiset(out + more)[d] == if d.tunnel in names + {name}
          then multiset(DriftsFor(node, want, have, d.tunnel))[d] else 0
    {
      assert multiset(out + more)[d] == multiset(out)[d] + multiset(more)[d];
      if d.tunnel != name { assert d !in more; }
    }
  }

  lemma CoversNothing(node: string, want: Intents, have: States)
    ensures Covers([], node, want, have, {})
  {
  }

  lemma SameCover(a: seq<Drift>, b: seq<Drift>, node: string, want: Intents, have: States, names: set<string>)
    requires multiset(a) == multiset(b) && Covers(a, node, want, have, names)
    ensures Covers(b, node, want, have, names)
  {
  }

  // ---- sorting ----

  lemma BeforeIsOrder(a: Drift, b: Drift, c: Drift)
    ensures Before(a, b) ==> !Before(b, a)
    ensures !Before(b, a) && !Before(c, b) ==> !Before(c, a)
    ensures !Before(a, b) && !Before(b, a) ==> a.tunnel == b.tunnel && a.kind == b.kind
  {
    hide Less;
    if a.tunnel != b.tunnel { LessTotal(a.tunnel, b.tunnel); }
    LessTotal(b.tunnel, c.tunnel);
    LessTotal(a.tunnel, c.tunnel);
    if Less(c.tunnel, a.tunnel) && Less(a.tunnel, b.tunnel) { LessTransitive(c.tunnel, a.tunnel, b.tunnel); }
    if Less(b.tunnel, c.tunnel) && Less(c.tunnel, a.tunnel) { LessTransitive(b.tunnel, c.tunnel, a.tunnel); }
    KindOrder(a.kind, b.kind);
    KindOrder(b.kind, a.kind);
    KindOrder(b.kind, c.kind);
    KindOrder(c.kind, b.kind);
    KindOrder(a.kind, c.kind);
    KindOrder(c.kind, a.kind);
  }

  function Place(k: Kind): nat
  {
    match k case Changed => 0 case Missing => 1 case Running => 2 case Stopped => 3 case Unexpected => 4
  }

  lemma KindOrder(a: Kind, b: Kind)
    ensures Less(KindText(a), KindText(b)) <==> Place(a) < Place(b)
  {
    if a == b { LessTotal(KindText(a), KindText(a)); }
  }

  /** sort.Slice by tunnel and then kind. */
  method SortDrifts(xs: seq<Drift>) returns (out: seq<Drift>)
    ensures Sorted(out) && multiset(out) == multiset(xs)
  {
    hide Before;
    out := [];
    for i := 0 to |xs|
      invariant Sorted(out) && multiset(out) == multiset(xs[..i])
    {
      var x := xs[i];
      var k: nat := |out|;
      while k > 0 && Before(x, out[k - 1])
        invariant 0 <= k <= |out| && forall j :: k <= j < |out| ==> Before(x, out[j])
      {
        k := k - 1;
      }
      InsertSorted(out, k, x);
      Inserted(out, k, x);
      assert xs[..i + 1] == xs[..i] + [x];
      out := out[..k] + [x] + out[k..];
    }
    assert xs[..|xs|] == xs;
  }

  lemma Inserted(out: seq<Drift>, k: nat, x: Drift)
    requires k <= |out|
    ensures multiset(out[..k] + [x] + out[k..]) == multiset(out) + multiset{x}
  {
    assert out == out[..k] + out[k..];
  }

  lemma InsertSorted(out: seq<Drift>, k: nat, x: Drift)
    requires Sorted(out) && k <= |out| && (k > 0 ==> !Before(x, out[k - 1]))
    requires forall j :: k <= j < |out| ==> Before(x, out[j])
    ensures Sorted(out[..k] + [x] + out[k..])
  {
    hide Before;
    var longer := out[..k] + [x] + out[k..];
    forall i, j | 0 <= i < j < |longer| ensures !Before(longer[j], longer[i]) {
      if j == k {
        if i < k - 1 { BeforeIsOrder(out[i], out[k - 1], x); }
      } else if i == k {
        BeforeIsOrder(x, out[j - 1], x);
      }
    }
  }

  // ---- the walks of Reconcile ----

  method ByName(actual: seq<State>) returns (have: States)
    ensures have == Reported(actual)
  {
    have := map[];
    for i := 0 to |actual|
      invariant have == Reported(actual[..i])
    {
      assert actual[..i + 1][..i] == actual[..i];
      have := have[actual[i].name := actual[i]];
    }
    assert actual[..|actual|] == actual;
  }

  /** The body of the first walk. */
  method Compare(node: string, name: string, w: Intent, got: State, found: seq<Drift>) returns (more: seq<Drift>)
    ensures more == found + Differences(node, name, w, got)
  {
    more := found;
    if w.port != "" && got.port != "" && w.port != got.port {
      more := more + [Drift(node, name, Changed, Ports(w.port, got.port))];
    }
    if w.role != "" && got.role != "" && !EqualFold(w.role, got.role) {
      more := more + [Drift(node, name, Changed, Roles(w.role, got.role))];
    }
    if w.running && !got.active {
      more := more + [Drift(node, name, Stopped, NotRunning)];
    } else if !w.running && got.active {
      more := more + [Drift(node, name, Running, StillRunning)];
    }
  }

  /** The walk over the intents, in any order. */
  method FromWanted(node: string, want: Intents, have: States) returns (found: seq<Drift>)
    ensures Covers(found, node, want, have, want.Keys)
  {
    hide Covers, Differences;
    found := [];
    var todo := want.Keys;
    CoversNothing(node, want, have);
    assert want.Keys - todo == {};
    while todo != {}
      invariant todo <= want.Keys
      invariant Covers(found, node, want, have, want.Keys - todo)
      decreases |todo|
    {
      var name :| name in todo;
      CoversMore(found, node, want, have, want.Keys - todo, name);
      assert want.Keys - todo + {name} == want.Keys - (todo - {name});
      if name !in have {
        found := found + [Drift(node, name, Missing, Gone)];
      } else {
        found := Compare(node, name, want[name], have[name], found);
      }
      todo := todo - {name};
    }
    assert want.Keys - {} == want.Keys;
  }

  lemma DoneWith(want: set<string>, have: set<string>, todo: set<string>, name: string)
    requires name in todo && todo <= have
    ensures var done := want + (have - todo);
            want + (have - (todo - {name})) == if name in want then done else done + {name}
  {
  }

  /** The walk over the report, in any order. */
  method FromHeld(wanted: seq<Drift>, node: string, want: Intents, have: States) returns (found: seq<Drift>)
    requires Covers(wanted, node, want, have, want.Keys)
    ensures Covers(found, node, want, have, want.Keys + have.Keys)
  {
    hide Covers;
    found := wanted;
    var todo := have.Keys;
    assert want.Keys + (have.Keys - todo) == want.Keys;
    while todo != {}
      invariant todo <= have.Keys
      invariant Covers(found, node, want, have, want.Keys + (have.Keys - todo))
      decreases |todo|
    {
      var name :| name in todo;
      ghost var done := want.Keys + (have.Keys - todo);
      if name !in want {
        CoversMore(found, node, want, have, done, name);
        found := found + [Drift(node, name, Unexpected, NotOurs)];
      }
      DoneWith(want.Keys, have.Keys, todo, name);
      todo := todo - {name};
    }
    assert have.Keys - {} == have.Keys;
  }

  // ---- the record ----

  function Recorded(fleet: Fleet, node: string, t: Intent): Fleet { fleet[node := Expected(fleet, node)[t.name := t]] }

  function RunningSet(fleet: Fleet, node: string, tunnel: string, running: bool, now: int): Fleet
  {
    var mine := Expected(fleet, node);
    if tunnel !in mine then fleet
    else fleet[node := mine[tunnel := mine[tunnel].(running := running, recorded := now)]]
  }

  function Forgotten(fleet: Fleet, node: string, tunnel: string): Fleet
  {
    if node !in fleet then fleet else
      var rest := fleet[node] - {tunnel};
      if rest == map[] then fleet - {node} else fleet[node := rest]
  }

  /** Desired. Saving is a parameter of each call: its failure is reported and
      stops nothing. */
  class Desired {
    var fleet: Fleet

    constructor (stored: Fleet)
      ensures fleet == stored
    {
      fleet := stored;
    }

    method Record(node: string, t: Intent, now: int, saved: bool) returns (ok: bool)
      modifies this
      ensures ok == (node != "" && t.name != "" && saved)
      ensures fleet == if node == "" || t.name == "" then old(fleet)
          else Recorded(old(fleet), node, t.(recorded := now))
      ensures fleet - {node} == old(fleet) - {node}
      ensures node != "" && t.name != "" ==>
        && node in fleet && t.name in fleet[node] && fleet[node][t.name] == t.(recorded := now)
        && fleet[node] - {t.name} == (if node in old(fleet) then old(fleet)[node] - {t.name} else map[])
    {
      if node == "" || t.name == "" { return false; }
      if node !in fleet { fleet := fleet[node := map[]]; }
      fleet := fleet[node := fleet[node][t.name := t.(recorded := now)]];
      return saved;
    }

    method SetRunning(node: string, tunnel: string, running: bool, now: int, saved: bool) returns (ok: bool)
      modifies this
      ensures ok == (tunnel in Expected(old(fleet), node) ==> saved)
      ensures fleet == RunningSet(old(fleet), node, tunnel, running, now)
      ensures fleet.Keys == old(fleet).Keys && fleet - {node} == old(fleet) - {node}
      ensures node in old(fleet) ==>
        && fleet[node].Keys == old(fleet)[node].Keys && fleet[node] - {tunnel} == old(fleet)[node] - {tunnel}
        && (tunnel in fleet[node] ==>
              fleet[node][tunnel] == old(fleet)[node][tunnel].(running := running, recorded := now))
    {
      if node !in fleet || tunnel !in fleet[node] { return true; }
      var t := fleet[node][tunnel].(running := running, recorded := now);
      fleet := fleet[node := fleet[node][tunnel := t]];
      return saved;
    }

    method Forget(node: string, tunnel: string, saved: bool) returns (ok: bool)
      modifies this
      ensures ok == (node in old(fleet) ==> saved)
      ensures fleet == Forgotten(old(fleet), node, tunnel)
      ensures fleet - {node} == old(fleet) - {node}
      ensures node in fleet <==> node in old(fleet) && old(fleet)[node] - {tunnel} != map[]
      ensures node in fleet ==> fleet[node] == old(fleet)[node] - {tunnel}
    {
      if node !in fleet { return true; }
      fleet := fleet[node := fleet[node] - {tunnel}];
      if fleet[node] == map[] {
        assert fleet - {node} == old(fleet) - {node};
        fleet := fleet - {node};
      }
      return saved;
    }

    /** Both maps are walked in whatever order; the answer is a report all the same. */
    method Reconcile(node: string, actual: seq<State>) returns (out: seq<Drift>)
      ensures IsReport(out, node, Expected(fleet, node), Reported(actual))
    {
      hide Covers, Sorted, Expected, Reported;
      var want := Expected(fleet, node);
      var have := ByName(actual);
      var found := FromWanted(node, want, have);
      found := FromHeld(found, node, want, have);
      out := SortDrifts(found);
      SameCover(found, out, node, want, have, want.Keys + have.Keys);
    }
  }

  // ---- what a report says ----

  ghost predicate LastNamed(actual: seq<State>, name: string, i: nat)
  {
    i < |actual| && actual[i].name == name && forall j :: i < j < |actual| ==> actual[j].name != name
  }

  lemma LastIsLastNamed(actual: seq<State>)
    requires actual != []
    ensures LastNamed(actual, actual[|actual| - 1].name, |actual| - 1)
  {
  }

  lemma LastNamedStays(actual: seq<State>, name: string, i: nat)
    requires actual != [] && actual[|actual| - 1].name != name && LastNamed(actual[..|actual| - 1], name, i)
    ensures LastNamed(actual, name, i) && actual[i] == actual[..|actual| - 1][i]
  {
    forall j | i < j < |actual| ensures actual[j].name != name {
      if j < |actual| - 1 { assert actual[..|actual| - 1][j] == actual[j]; }
    }
  }

  lemma {:induction false} ReportedIsLast(actual: seq<State>, name: string)
    ensures name in Reported(actual) <==> exists i :: 0 <= i < |actual| && actual[i].name == name
    ensures name in Reported(actual) ==> exists i: nat ::
        LastNamed(actual, name, i) && Reported(actual)[name] == actual[i]
  {
    if actual != [] {
      hide LastNamed;
      var front, last := actual[..|actual| - 1], actual[|actual| - 1];
      ReportedIsLast(front, name);
      if last.name == name {
        LastIsLastNamed(actual);
      } else if name in Reported(front) {
        var i: nat :| LastNamed(front, name, i) && Reported(front)[name] == front[i];
        LastNamedStays(actual, name, i);
      } else if i :| 0 <= i < |actual| && actual[i].name == name {
        assert front[i].name == name;
      }
    }
  }

  /** The report names this tunnel with a difference of this kind. */
  ghost predicate Says(out: seq<Drift>, name: string, kind: Kind)
  {
    exists d :: d in out && d.tunnel == name && d.kind == kind
  }

  predicate Both(want: Intents, have: States, name: string) { name in want && name in have }

  lemma ReportMember(out: seq<Drift>, node: string, want: Intents, have: States, d: Drift)
    requires IsReport(out, node, want, have)
    ensures d in out <==> d in DriftsFor(node, want, have, d.tunnel)
  {
    hide Differences, Sorted;
    assert d in multiset(out) <==> d in out;
    assert d in multiset(DriftsFor(node, want, have, d.tunnel)) <==> d in DriftsFor(node, want, have, d.tunnel);
    assert multiset(out)[d] == if d.tunnel in want.Keys + have.Keys
        then multiset(DriftsFor(node, want, have, d.tunnel))[d] else 0;
  }

  /** What is due to be reported: the entry itself, with what its sentence quotes, the
      intent's side first. */
  predicate DueEntry(d: Drift, node: string, want: Intents, have: States)
  {
    var name := d.tunnel;
    && d.node == node
    && match d.kind
       case Missing => name in want && name !in have && d.detail == Gone
       case Unexpected => name in have && name !in want && d.detail == NotOurs
       case Stopped => Both(want, have, name) && want[name].running && !have[name].active && d.detail == NotRunning
       case Running => Both(want, have, name) && !want[name].running && have[name].active && d.detail == StillRunning
       case Changed =>
         && Both(want, have, name)
         && var w, got := want[name], have[name];
            || (w.port != "" && got.port != "" && w.port != got.port && d.detail == Ports(w.port, got.port))
            || (w.role != "" && got.role != "" && !EqualFold(w.role, got.role) && d.detail == Roles(w.role, got.role))
  }

  /** A report holds every entry that is due, once, and no other. */
  lemma ReportIs(out: seq<Drift>, node: string, want: Intents, have: States, d: Drift)
    requires IsReport(out, node, want, have)
    ensures multiset(out)[d] == if DueEntry(d, node, want, have) then 1 else 0
  {
    hide DriftsFor, DueEntry, Sorted;
    var ds := DriftsFor(node, want, have, d.tunnel);
    assert multiset(out)[d] == if d.tunnel in want.Keys + have.Keys then multiset(ds)[d] else 0;
    CountFor(node, want, have, d);
  }

  lemma CountFor(node: string, want: Intents, have: States, d: Drift)
    ensures multiset(DriftsFor(node, want, have, d.tunnel))[d] == if DueEntry(d, node, want, have) then 1 else 0
    ensures DueEntry(d, node, want, have) ==> d.tunnel in want.Keys + have.Keys
  {
    hide EqualFold, Differences;
    if Both(want, have, d.tunnel) { DifferencesCount(node, d.tunnel, want[d.tunnel], have[d.tunnel], d); }
  }

  lemma DifferencesCount(node: string, name: string, w: Intent, got: State, d: Drift)
    ensures multiset(Differences(node, name, w, got))[d] ==
      (if d == Drift(node, name, Changed, Ports(w.port, got.port)) && PortsDiffer(w, got) then 1 else 0)
      + (if d == Drift(node, name, Changed, Roles(w.role, got.role)) && RolesDiffer(w, got) then 1 else 0)
      + (if d == Drift(node, name, Stopped, NotRunning) && w.running && !got.active then 1 else 0)
      + (if d == Drift(node, name, Running, StillRunning) && !w.running && got.active then 1 else 0)
  {
    hide EqualFold;
  }

  /** Sound and complete, kind by kind. */
  lemma ReportSays(out: seq<Drift>, node: string, want: Intents, have: States, name: string)
    requires IsReport(out, node, want, have)
    ensures Says(out, name, Missing) <==> name in want && name !in have
    ensures Says(out, name, Unexpected) <==> name in have && name !in want
    ensures Says(out, name, Stopped) <==> Both(want, have, name) && want[name].running && !have[name].active
    ensures Says(out, name, Running) <==> Both(want, have, name) && !want[name].running && have[name].active
    ensures Says(out, name, Changed) <==>
      Both(want, have, name) && (PortsDiffer(want[name], have[name]) || RolesDiffer(want[name], have[name]))
  {
    hide IsReport, EqualFold, Differences, PortsDiffer, RolesDiffer;
    var ds := DriftsFor(node, want, have, name);
    forall kind ensures Says(out, name, kind) <==> Says(ds, name, kind) {
      if Says(out, name, kind) {
        var d :| d in out && d.tunnel == name && d.kind == kind;
        ReportMember(out, node, want, have, d);
      } else if Says(ds, name, kind) {
        var d :| d in ds && d.tunnel == name && d.kind == kind;
        ReportMember(out, node, want, have, d);
      }
    }
    if Both(want, have, name) {
      DifferencesSay(node, name, want[name], have[name]);
    } else if ds != [] {
      assert ds[0] in ds;
    }
  }

  lemma DifferencesSay(node: string, name: string, w: Intent, got: State)
    ensures var ds := Differences(node, name, w, got);
      && (Says(ds, name, Stopped) <==> w.running && !got.active)
      && (Says(ds, name, Running) <==> !w.running && got.active)
      && (Says(ds, name, Changed) <==> PortsDiffer(w, got) || RolesDiffer(w, got))
      && !Says(ds, name, Missing) && !Says(ds, name, Unexpected)
  {
    hide PortsDiffer, RolesDiffer;
    var ds := Differences(node, name, w, got);
    if PortsDiffer(w, got) || RolesDiffer(w, got) { assert ds[0] in ds && ds[0].kind == Changed; }
    if w.running != got.active {
      assert ds[|ds| - 1] in ds && ds[|ds| - 1].kind == if w.running then Stopped else Running;
    }
  }

  /** Nothing to say: the same names, and every fact both sides state agrees. */
  predicate Agree(want: Intents, have: States)
  {
    && want.Keys == have.Keys
    && forall name :: name in want ==> Matches(want[name], have[name])
  }

  predicate Matches(w: Intent, got: State)
  {
    && (w.port == "" || got.port == "" || w.port == got.port)
    && (w.role == "" || got.role == "" || EqualFold(w.role, got.role))
    && w.running == got.active
  }

  lemma SilentIffAgree(out: seq<Drift>, node: string, want: Intents, have: States)
    requires IsReport(out, node, want, have)
    ensures out == [] <==> Agree(want, have)
  {
    hide EqualFold;
    if out == [] {
      forall name ensures name in want <==> name in have { SilentAbout(out, node, want, have, name); }
      forall name | name in want ensures Matches(want[name], have[name]) { SilentAbout(out, node, want, have, name); }
    } else {
      var d := out[0];
      ReportMember(out, node, want, have, d);
    }
  }

  lemma SilentAbout(out: seq<Drift>, node: string, want: Intents, have: States, name: string)
    requires IsReport(out, node, want, have) && out == []
    ensures name in want <==> name in have
    ensures name in want ==> Matches(want[name], have[name])
  {
    ReportSays(out, node, want, have, name);
  }

  // ---- is the order stable? ----

  /** A tunnel whose port and role have both changed has two entries of one kind. */
  predicate ChangedTwice(want: Intents, have: States, name: string)
  {
    Both(want, have, name) && PortsDiffer(want[name], have[name]) && RolesDiffer(want[name], have[name])
  }

  lemma SameEntry(node: string, want: Intents, have: States, a: Drift, b: Drift)
    requires a in DriftsFor(node, want, have, a.tunnel) && b in DriftsFor(node, want, have, b.tunnel)
    requires a.tunnel == b.tunnel && a.kind == b.kind && !ChangedTwice(want, have, a.tunnel)
    ensures a == b
  {
    hide EqualFold;
  }

  lemma {:induction false} SortedUnique(a: seq<Drift>, b: seq<Drift>)
    requires multiset(a) == multiset(b) && Sorted(a) && Sorted(b)
    requires forall x, y :: x in a && y in a && !Before(x, y) && !Before(y, x) ==> x == y
    ensures a == b
  {
    hide Before;
    if a == [] {
      assert |b| == |multiset(a)|;
    } else {
      assert a[0] in multiset(b) && |a| == |multiset(b)| == |b|;
      assert b[0] in multiset(a);
      assert a[0] == b[0];
      assert a == [a[0]] + a[1..] && b == [b[0]] + b[1..];
      assert multiset(a[1..]) == multiset(a) - multiset{a[0]};
      assert multiset(b[1..]) == multiset(b) - multiset{b[0]};
      SortedUnique(a[1..], b[1..]);
    }
  }

  /** With no tunnel changed twice there is one report, whatever the map order
      and whatever the sort does with equals. */
  lemma OneReport(a: seq<Drift>, b: seq<Drift>, node: string, want: Intents, have: States)
    requires IsReport(a, node, want, have) && IsReport(b, node, want, have)
    requires forall name :: !ChangedTwice(want, have, name)
    ensures a == b
  {
    hide DriftsFor, Before, ChangedTwice, Sorted;
    assert multiset(a) == multiset(b);
    forall x, y | x in a && y in a && !Before(x, y) && !Before(y, x) ensures x == y {
      BeforeIsOrder(x, y, x);
      ReportMember(a, node, want, have, x);
      ReportMember(a, node, want, have, y);
      SameEntry(node, want, have, x, y);
    }
    SortedUnique(a, b);
  }

  /** With a tunnel changed twice there is always another report. */
  lemma AnotherReport(a: seq<Drift>, node: string, want: Intents, have: States, name: string) returns (b: seq<Drift>)
    requires IsReport(a, node, want, have) && ChangedTwice(want, have, name)
    ensures IsReport(b, node, want, have) && b != a
  {
    hide Less, EqualFold;
    var ds := DriftsFor(node, want, have, name);
    var p, r := ds[0], ds[1];
    ReportMember(a, node, want, have, p);
    ReportMember(a, node, want, have, r);
    var i :| 0 <= i < |a| && a[i] == p;
    var j :| 0 <= j < |a| && a[j] == r;
    b := a[i := r][j := p];
    SwapEquals(a, i, j);
    SameCover(a, b, node, want, have, want.Keys + have.Keys);
  }

  lemma SwapEquals(a: seq<Drift>, i: nat, j: nat)
    requires i < |a| && j < |a| && i != j && Sorted(a) && a[i].tunnel == a[j].tunnel && a[i].kind == a[j].kind
    ensures var b := a[i := a[j]][j := a[i]]; Sorted(b) && multiset(b) == multiset(a)
  {
    hide Less, KindText;
    var b := a[i := a[j]][j := a[i]];
    forall k, l | 0 <= k < l < |b| ensures !Before(b[l], b[k]) {
      assert Before(b[l], b[k]) == Before(a[l], a[k]);
    }
  }

  // ---- what the record's operations do to later reports ----

  /** No node is kept with nothing expected of it. */
  predicate NoEmptyNode(fleet: Fleet) { forall node :: node in fleet ==> fleet[node] != map[] }

  lemma EmptyNodesNeverAppear(fleet: Fleet, node: string, t: Intent, tunnel: string, running: bool, now: int)
    requires NoEmptyNode(fleet)
    ensures NoEmptyNode(Recorded(fleet, node, t))
    ensures NoEmptyNode(RunningSet(fleet, node, tunnel, running, now))
    ensures NoEmptyNode(Forgotten(fleet, node, tunnel))
  {
    assert t.name in Recorded(fleet, node, t)[node];
    if tunnel in Expected(fleet, node) { assert tunnel in RunningSet(fleet, node, tunnel, running, now)[node]; }
  }

  lemma ForgetUndoesRecord(fleet: Fleet, node: string, t: Intent)
    requires NoEmptyNode(fleet) && t.name !in Expected(fleet, node)
    ensures Forgotten(Recorded(fleet, node, t), node, t.name) == fleet
  {
    var after := Recorded(fleet, node, t);
    assert after[node] - {t.name} == Expected(fleet, node);
    if node in fleet {
      assert Forgotten(after, node, t.name) == fleet[node := fleet[node]] == fleet;
    } else {
      assert Forgotten(after, node, t.name) == after - {node} == fleet;
    }
  }

  /** The report says of every other tunnel what it says with these intents. */
  ghost predicate OthersStand(out: seq<Drift>, node: string, want: Intents, have: States, name: string)
  {
    forall d: Drift :: d.tunnel != name ==> (d in out <==> d in DriftsFor(node, want, have, d.tunnel))
  }

  /** A tunnel built as reported is not drift, and the rest of the report stands. */
  lemma RecordThenSilent(fleet: Fleet, node: string, t: Intent, have: States, out: seq<Drift>)
    requires IsReport(out, node, Expected(Recorded(fleet, node, t), node), have)
    requires t.name in have && Matches(t, have[t.name])
    ensures forall d :: d in out ==> d.tunnel != t.name
    ensures OthersStand(out, node, Expected(fleet, node), have, t.name)
  {
    hide EqualFold, IsReport;
    var want := Expected(Recorded(fleet, node, t), node);
    assert DriftsFor(node, want, have, t.name) == [];
    forall d: Drift
      ensures d in out <==> d in DriftsFor(node, want, have, d.tunnel)
    {
      ReportMember(out, node, want, have, d);
    }
  }

  /** A deliberate start or stop is not drift once the node is in that state, and
      no other tunnel's entry changes. */
  lemma SetRunningSilences(fleet: Fleet, node: string, tunnel: string, running: bool, now: int, have: States,
                           out: seq<Drift>)
    requires tunnel in Expected(fleet, node) && tunnel in have && have[tunnel].active == running
    requires IsReport(out, node, Expected(RunningSet(fleet, node, tunnel, running, now), node), have)
    ensures !Says(out, tunnel, Stopped) && !Says(out, tunnel, Running) && !Says(out, tunnel, Missing)
    ensures OthersStand(out, node, Expected(fleet, node), have, tunnel)
  {
    hide EqualFold, IsReport;
    var want := Expected(RunningSet(fleet, node, tunnel, running, now), node);
    ReportSays(out, node, want, have, tunnel);
    forall d: Drift
      ensures d in out <==> d in DriftsFor(node, want, have, d.tunnel)
    {
      ReportMember(out, node, want, have, d);
    }
  }

  /** After a delete, a tunnel still on the node is one nobody put there. */
  lemma ForgetThenUnexpected(fleet: Fleet, node: string, tunnel: string, have: States, out: seq<Drift>)
    requires IsReport(out, node, Expected(Forgotten(fleet, node, tunnel), node), have)
    ensures Says(out, tunnel, Unexpected) <==> tunnel in have
    ensures !Says(out, tunnel, Missing)
    ensures OthersStand(out, node, Expected(fleet, node), have, tunnel)
  {
    hide EqualFold, IsReport;
    var want := Expected(Forgotten(fleet, node, tunnel), node);
    assert want == Expected(fleet, node) - {tunnel};
    ReportSays(out, node, want, have, tunnel);
    forall d: Drift
      ensures d in out <==> d in DriftsFor(node, want, have, d.tunnel)
    {
      ReportMember(out, node, want, have, d);
    }
  }

  lemma OtherNodesUntouched(fleet: Fleet, node: string, t: Intent, tunnel: string, running: bool, now: int,
                            other: string)
    requires other != node
    ensures Expected(Recorded(fleet, node, t), other) == Expected(fleet, other)
    ensures Expected(RunningSet(fleet, node, tunnel, running, now), other) == Expected(fleet, other)
    ensures Expected(Forgotten(fleet, node, tunnel), other) == Expected(fleet, other)
  {
  }
}
