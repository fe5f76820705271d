/** The viewer's static tables: class id -> label (with the `Class {id}`
    fallback), the per-label tally shown under "Ringkasan Deteksi", and the
    case-insensitive label -> stroke colour table used by the overlay. */
module Labels {
  import opened Wrappers
  import opened Text
  import opened Detections

  /** Labels of the class ids 0 to 5, indexed by id. */
  const KnownLabels: seq<string> := ["Person", "Bicycle", "Car", "Motorcycle", "Bus", "Truck"]

  const FallbackPrefix: string := "Class "

  /** Recovers the class id a label was produced from; `None` for strings
      that no class id resolves to. */
  function ClassIdOf(name: string): Option<int> {
    if name == "Person" then Some(0)
    else if name == "Bicycle" then Some(1)
    else if name == "Car" then Some(2)
    else if name == "Motorcycle" then Some(3)
    else if name == "Bus" then Some(4)
    else if name == "Truck" then Some(5)
    else if |name| > |FallbackPrefix| && name[..|FallbackPrefix|] == FallbackPrefix then
      match ParseInt(name[|FallbackPrefix|..])
      case Some(id) => if 0 <= id < |KnownLabels| then None else Some(id)
      case None => None
    else None
  }

  /** Resolves a class id to its display label: the table entry when there
      is one, else `Class {id}`. Total, never empty, and the id can always
      be read back from the label, so distinct ids give distinct labels. */
  function LabelOf(classId: int): (r: string)
    ensures |r| > 0
    ensures ClassIdOf(r) == Some(classId)
  {
    if 0 <= classId < |KnownLabels| then KnownLabels[classId]
    else
      var digits := IntToString(classId);
      var r := FallbackPrefix + digits;
      IntToStringRoundTrip(classId);
      assert r[..|FallbackPrefix|] == FallbackPrefix && r[|FallbackPrefix|..] == digits;
      assert r[0] == 'C' && |r| > 6;
      r
  }

  /** The label table, entry by entry, and its fallback. */
  lemma LabelTable(classId: int)
    ensures LabelOf(0) == "Person" && LabelOf(1) == "Bicycle" && LabelOf(2) == "Car"
    ensures LabelOf(3) == "Motorcycle" && LabelOf(4) == "Bus" && LabelOf(5) == "Truck"
    ensures !(0 <= classId <= 5) ==> LabelOf(classId) == "Class " + IntToString(classId)
  {
  }

  /** Two class ids share a label exactly when they are the same id. */
  lemma LabelInjective(a: int, b: int)
    ensures LabelOf(a) == LabelOf(b) <==> a == b
  {
  }

  // ---------------------------------------------------------------------
  // The detection summary
  // ---------------------------------------------------------------------

  /** The set of labels the detections resolve to. */
  ghost function LabelSet(dets: seq<Detection>): set<string> {
    set i | 0 <= i < |dets| :: LabelOf(dets[i].classId)
  }

  /** One step of the tally loop: bump the count of `name`, starting at 0. */
  function Tally(summary: map<string, nat>, name: string): map<string, nat> {
    summary[name := (if name in summary then summary[name] else 0) + 1]
  }

  /** `getSummary`: the detections are tallied in order, one count per
      resolved label. Its keys are exactly the labels that occur, and every
      count is positive. */
  function Summary(dets: seq<Detection>): (m: map<string, nat>)
    ensures m.Keys == LabelSet(dets)
    ensures forall l :: l in m ==> m[l] > 0
  {
    if |dets| == 0 then map[]
    else
      var prefix := dets[..|dets| - 1];
      var last := dets[|dets| - 1];
      LabelSetSnoc(dets);
      Tally(Summary(prefix), LabelOf(last.classId))
  }

  /** The labels of a list are those of all but its last detection, plus the last one's. */
  lemma LabelSetSnoc(dets: seq<Detection>)
    requires |dets| > 0
    ensures LabelSet(dets) == LabelSet(dets[..|dets| - 1]) + {LabelOf(dets[|dets| - 1].classId)}
  {
    var prefix := dets[..|dets| - 1];
    assert forall i :: 0 <= i < |prefix| ==> prefix[i] == dets[i];
    assert LabelSet(dets) <= LabelSet(prefix) + {LabelOf(dets[|dets| - 1].classId)} by {
      forall l | l in LabelSet(dets)
        ensures l in LabelSet(prefix) + {LabelOf(dets[|dets| - 1].classId)}
      {
        var i :| 0 <= i < |dets| && l == LabelOf(dets[i].classId);
        if i < |prefix| { assert l == LabelOf(prefix[i].classId); }
      }
    }
  }

  /** Reference count: how many detections resolve to `name`. */
  function CountLabel(dets: seq<Detection>, name: string): nat {
    if |dets| == 0 then 0
    else (if LabelOf(dets[0].classId) == name then 1 else 0) + CountLabel(dets[1..], name)
  }

  /** Reference count: how many detections have class id `classId`. */
  function CountClass(dets: seq<Detection>, classId: int): nat {
    if |dets| == 0 then 0
    else (if dets[0].classId == classId then 1 else 0) + CountClass(dets[1..], classId)
  }

  lemma {:induction false} CountLabelSnoc(dets: seq<Detection>, d: Detection, name: string)
    ensures CountLabel(dets + [d], name) == CountLabel(dets, name) + (if LabelOf(d.classId) == name then 1 else 0)
  {
    if |dets| > 0 {
      assert (dets + [d])[1..] == dets[1..] + [d];
      CountLabelSnoc(dets[1..], d, name);
    }
  }

  /** An empty detection list has an empty summary. */
  lemma SummaryOfEmpty()
    ensures Summary([]) == map[]
  {
  }

  /** For every label, the summary holds it exactly when some detection
      resolves to it, and its count is the number of such detections. */
  lemma {:induction false} SummaryCounts(dets: seq<Detection>, name: string)
    ensures name in Summary(dets) <==> CountLabel(dets, name) > 0
    ensures name in Summary(dets) ==> Summary(dets)[name] == CountLabel(dets, name)
    decreases |dets|
  {
    if |dets| > 0 {
      var prefix := dets[..|dets| - 1];
      var last := dets[|dets| - 1];
      assert dets == prefix + [last];
      SummaryCounts(prefix, name);
      CountLabelSnoc(prefix, last, name);
    }
  }

  lemma {:induction false} CountLabelOfClass(dets: seq<Detection>, classId: int)
    ensures CountLabel(dets, LabelOf(classId)) == CountClass(dets, classId)
  {
    if |dets| > 0 {
      LabelInjective(dets[0].classId, classId);
      CountLabelOfClass(dets[1..], classId);
    }
  }

  /** Because labels identify class ids, the summary entry of a class's
      label counts exactly the detections of that class. */
  lemma {:induction false} SummaryCountsClass(dets: seq<Detection>, classId: int)
    ensures LabelOf(classId) in Summary(dets) <==> CountClass(dets, classId) > 0
    ensures LabelOf(classId) in Summary(dets) ==> Summary(dets)[LabelOf(classId)] == CountClass(dets, classId)
  {
    SummaryCounts(dets, LabelOf(classId));
    CountLabelOfClass(dets, classId);
  }

  /** Sum of the counts of a summary. */
  ghost function SumCounts(m: map<string, nat>): nat
    decreases m.Keys
  {
    if m.Keys == {} then 0
    else
      var k :| k in m;
      assert (m - {k}).Keys < m.Keys;
      m[k] + SumCounts(m - {k})
  }

  lemma {:induction false} SumCountsRemove(m: map<string, nat>, k: string)
    requires k in m
    ensures SumCounts(m) == m[k] + SumCounts(m - {k})
    decreases m.Keys
  {
    var k' :| k' in m && SumCounts(m) == m[k'] + SumCounts(m - {k'});
    if k' != k {
      var m1 := m - {k'};
      var m2 := m - {k};
      assert k in m1 && k' in m2;
      SumCountsRemove(m1, k);
      SumCountsRemove(m2, k');
      assert m1 - {k} == m2 - {k'};
    }
  }

  lemma SumCountsTally(m: map<string, nat>, name: string)
    ensures SumCounts(Tally(m, name)) == SumCounts(m) + 1
  {
    var t := Tally(m, name);
    SumCountsRemove(t, name);
    if name in m {
      SumCountsRemove(m, name);
      assert t - {name} == m - {name};
    } else {
      assert t - {name} == m;
    }
  }

  /** The counts of the summary add up to the number of detections. */
  lemma {:induction false} SummarySumsToLength(dets: seq<Detection>)
    ensures SumCounts(Summary(dets)) == |dets|
    decreases |dets|
  {
    if |dets| > 0 {
      var prefix := dets[..|dets| - 1];
      SummarySumsToLength(prefix);
      SumCountsTally(Summary(prefix), LabelOf(dets[|dets| - 1].classId));
    }
  }

  // ---------------------------------------------------------------------
  // Colours
  // ---------------------------------------------------------------------

  /** Stroke and fill colours of the overlay. */
  datatype Color = Red | Green | Orange | Blue | Pink {
    /** The CSS colour name written to the canvas. */
    function CssName(): string {
      match this
      case Red => "red"
      case Green => "green"
      case Orange => "orange"
      case Blue => "blue"
      case Pink => "pink"
    }
  }

  /** The colour switch on the lower-cased label; anything unlisted is red. */
  function ColorOf(name: string): Color {
    var key := ToLower(name);
    if key == "car" then Red
    else if key == "bus" then Green
    else if key == "person" then Orange
    else if key == "motorcycle" then Blue
    else if key == "bicycle" then Pink
    else Red
  }

  /** The colour table read backwards: each colour other than red belongs to
      exactly one lower-cased label, and red to every other label. */
  lemma ColorTable(name: string)
    ensures ColorOf(name) == Green <==> ToLower(name) == "bus"
    ensures ColorOf(name) == Orange <==> ToLower(name) == "person"
    ensures ColorOf(name) == Blue <==> ToLower(name) == "motorcycle"
    ensures ColorOf(name) == Pink <==> ToLower(name) == "bicycle"
    ensures ColorOf(name) == Red <==> ToLower(name) !in {"bus", "person", "motorcycle", "bicycle"}
  {
  }

  /** The colour depends on the label only up to letter case. */
  lemma ColorIgnoresCase(a: string, b: string)
    ensures ToLower(a) == ToLower(b) ==> ColorOf(a) == ColorOf(b)
    ensures ColorOf(ToLower(a)) == ColorOf(a)
  {
    ToLowerIdempotent(a);
  }

  /** The colour each class id is drawn in, by id: Person orange, Bicycle
      pink, Car red, Motorcycle blue, Bus green, and Truck, which has no entry
      of its own, red like Car; every fallback label `Class {id}` is red. */
  lemma ClassColor(classId: int)
    ensures ColorOf(LabelOf(classId)) ==
      if 0 <= classId <= 5 then [Orange, Pink, Red, Blue, Green, Red][classId] else Red
  {
    if classId == 0 {
      assert ToLower("Person") == "person";
    } else if classId == 1 {
      assert ToLower("Bicycle") == "bicycle";
    } else if classId == 2 {
      assert ToLower("Car") == "car";
    } else if classId == 3 {
      assert ToLower("Motorcycle") == "motorcycle";
    } else if classId == 4 {
      assert ToLower("Bus") == "bus";
    } else if classId == 5 {
      assert ToLower("Truck") == "truck";
    } else {
      var lower := ToLower(LabelOf(classId));
      assert lower[0] == 'c' && |lower| > 6;
    }
  }
}
