/** The two loops of main.py that prepare shapes for drawing: the filter that
    keeps the attribute specs named "1" to "4" (update_task_id_dropdown), and
    the grouping of a job's shapes by frame (get_job_annotations), which also
    turns each shape's attribute values into its list of visibility codes. */
module Annotations {
  import opened Cuboid
  import opened Drawing

  /** An attribute declared on a label: its id and its name. */
  datatype AttributeSpec = AttributeSpec(id: int, name: string)

  /** A label of the project: its id, display colour and declared attributes. */
  datatype Label = Label(id: int, color: string, attributes: seq<AttributeSpec>)

  /** The value a shape gives to one attribute spec. */
  datatype AttributeValue = AttributeValue(specId: int, value: string)

  /** A shape as the annotation server returns it for a job. */
  datatype JobShape = JobShape(
    frame: int, labelId: int, shapeType: string, points: seq<real>,
    attributes: seq<AttributeValue>)

  // ---------------------------------------------------------------------------
  // The visibility-code attributes of a project

  /** Spec j has a code name and is the last spec with its id that does. */
  predicate LastCodeSpec(specs: seq<AttributeSpec>, j: int)
    requires 0 <= j < |specs|
  {
    && IsCode(specs[j].name)
    && forall k | j < k < |specs| :: specs[k].id == specs[j].id ==> !IsCode(specs[k].name)
  }

  /** The code attributes among a list of specs, a later spec overriding an
      earlier one with the same id. */
  function CodeSpecs(specs: seq<AttributeSpec>): (m: map<int, string>)
    ensures forall id | id in m :: IsCode(m[id])
    ensures forall id :: id in m <==>
      exists j :: 0 <= j < |specs| && specs[j].id == id && IsCode(specs[j].name)
  {
    if specs == [] then map[]
    else
      var prev := CodeSpecs(specs[..|specs| - 1]);
      var last := specs[|specs| - 1];
      if IsCode(last.name) then prev[last.id := last.name] else prev
  }

  /** Each id is mapped to the name of its last spec named "1" to "4". */
  lemma {:induction false} CodeSpecsNames(specs: seq<AttributeSpec>)
    ensures forall id | id in CodeSpecs(specs) :: exists j ::
      0 <= j < |specs| && LastCodeSpec(specs, j) && specs[j].id == id && specs[j].name == CodeSpecs(specs)[id]
  {
    if specs != [] {
      var prev, last := specs[..|specs| - 1], specs[|specs| - 1];
      var m, mp := CodeSpecs(specs), CodeSpecs(prev);
      CodeSpecsNames(prev);
      forall id | id in m ensures exists j ::
        0 <= j < |specs| && LastCodeSpec(specs, j) && specs[j].id == id && specs[j].name == m[id]
      {
        if IsCode(last.name) && id == last.id {
          assert LastCodeSpec(specs, |specs| - 1);
        } else {
          var j :| 0 <= j < |prev| && LastCodeSpec(prev, j) && prev[j].id == id && prev[j].name == mp[id];
          assert prev[j] == specs[j];
          forall k | j < k < |specs| && specs[k].id == specs[j].id ensures !IsCode(specs[k].name) {
            if k < |prev| { assert prev[k] == specs[k]; }
          }
          assert LastCodeSpec(specs, j);
        }
      }
    }
  }

  /** The last spec of an id named "1" to "4" wins: its name is the id's value. */
  lemma {:induction false} CodeSpecsLastWins(specs: seq<AttributeSpec>, j: nat)
    requires j < |specs| && LastCodeSpec(specs, j)
    ensures specs[j].id in CodeSpecs(specs) && CodeSpecs(specs)[specs[j].id] == specs[j].name
  {
    var prev := specs[..|specs| - 1];
    if j < |prev| {
      assert prev[j] == specs[j];
      forall k | j < k < |prev| && prev[k].id == prev[j].id ensures !IsCode(prev[k].name) {
        assert prev[k] == specs[k];
      }
      CodeSpecsLastWins(prev, j);
    }
  }

  /** Entering the specs of s and then those of t is entering those of s + t. */
  lemma {:induction false} CodeSpecsAppend(s: seq<AttributeSpec>, t: seq<AttributeSpec>)
    ensures CodeSpecs(s + t) == CodeSpecs(s) + CodeSpecs(t)
  {
    if t == [] {
      assert s + t == s;
    } else {
      var t', x := t[..|t| - 1], t[|t| - 1];
      CodeSpecsAppend(s, t');
      assert (s + t)[..|s + t| - 1] == s + t';
      assert (s + t)[|s + t| - 1] == x;
      if IsCode(x.name) {
        UpdateUnion(CodeSpecs(s), CodeSpecs(t'), x.id, x.name);
      }
    }
  }

  lemma UpdateUnion(a: map<int, string>, b: map<int, string>, k: int, v: string)
    ensures (a + b)[k := v] == a + b[k := v]
  {
  }

  /** The specs of all labels, label by label, each in declaration order. */
  function AllSpecs(labels: seq<Label>): seq<AttributeSpec>
  {
    if labels == [] then [] else AllSpecs(labels[..|labels| - 1]) + labels[|labels| - 1].attributes
  }

  /** The map from attribute id to name built over all labels in order: it keeps
      exactly the specs named "1" to "4". */
  function CodeAttributes(labels: seq<Label>): (m: map<int, string>)
    ensures forall id | id in m :: IsCode(m[id])
    ensures forall id :: id in m <==>
      exists i, j :: 0 <= i < |labels| && 0 <= j < |labels[i].attributes| &&
        labels[i].attributes[j].id == id && IsCode(labels[i].attributes[j].name)
  {
    if labels == [] then map[]
    else
      var prev := labels[..|labels| - 1];
      assert forall i :: 0 <= i < |prev| ==> prev[i] == labels[i];
      CodeAttributes(prev) + CodeSpecs(labels[|labels| - 1].attributes)
  }

  /** The nested loops over labels and specs behave as one loop over all specs
      in order, so a later spec overrides an earlier one even across labels:
      each id maps to the name of the last spec of that id named "1" to "4". */
  lemma {:induction false} CodeAttributesFlat(labels: seq<Label>)
    ensures CodeAttributes(labels) == CodeSpecs(AllSpecs(labels))
  {
    if labels != [] {
      var prev := labels[..|labels| - 1];
      CodeAttributesFlat(prev);
      CodeSpecsAppend(AllSpecs(prev), labels[|labels| - 1].attributes);
    }
  }

  /** The nested loops over labels and their attribute specs that fill the map. */
  method CollectCodeAttributes(labels: seq<Label>) returns (attributes: map<int, string>)
    ensures attributes == CodeAttributes(labels)
  {
    attributes := map[];
    var i := 0;
    while i < |labels|
      invariant 0 <= i <= |labels|
      invariant attributes == CodeAttributes(labels[..i])
    {
      attributes := AddCodeSpecs(attributes, labels[i].attributes);
      CodeAttributesStep(labels, i);
      i := i + 1;
    }
    assert labels[..i] == labels;
  }

  /** The inner loop: one label's specs entered into the map in order. */
  method AddCodeSpecs(before: map<int, string>, specs: seq<AttributeSpec>) returns (attributes: map<int, string>)
    ensures attributes == before + CodeSpecs(specs)
  {
    attributes := before;
    var j := 0;
    while j < |specs|
      invariant 0 <= j <= |specs|
      invariant attributes == before + CodeSpecs(specs[..j])
    {
      CodeSpecsStep(before, specs, j);
      if IsCode(specs[j].name) {
        attributes := attributes[specs[j].id := specs[j].name];
      }
      j := j + 1;
    }
    assert specs[..j] == specs;
  }

  lemma CodeAttributesStep(labels: seq<Label>, i: nat)
    requires i < |labels|
    ensures CodeAttributes(labels[..i + 1]) == CodeAttributes(labels[..i]) + CodeSpecs(labels[i].attributes)
  {
    assert labels[..i + 1][..i] == labels[..i];
  }

  lemma CodeSpecsStep(before: map<int, string>, specs: seq<AttributeSpec>, j: nat)
    requires j < |specs|
    ensures before + CodeSpecs(specs[..j + 1]) ==
        if IsCode(specs[j].name) then (before + CodeSpecs(specs[..j]))[specs[j].id := specs[j].name]
        else before + CodeSpecs(specs[..j])
  {
    assert specs[..j + 1][..j] == specs[..j];
  }

  // ---------------------------------------------------------------------------
  // Grouping a job's shapes by frame

  /** A shape's value counts when it is "true" and names a code attribute. */
  predicate Selected(v: AttributeValue, codes: map<int, string>)
  {
    v.value == "true" && v.specId in codes
  }

  /** The names of the code attributes a shape sets to "true", in the order of
      its values. */
  function ShapeCodes(values: seq<AttributeValue>, codes: map<int, string>): (r: seq<string>)
    ensures |r| <= |values|
    ensures forall k :: 0 <= k < |r| ==> r[k] in codes.Values
    ensures r == [] <==> forall j :: 0 <= j < |values| ==> !Selected(values[j], codes)
  {
    if values == [] then []
    else
      (if Selected(values[0], codes) then [codes[values[0].specId]] else [])
      + ShapeCodes(values[1..], codes)
  }

  /** A single value contributes its code name exactly when it is selected. */
  lemma ShapeCodesSingle(v: AttributeValue, codes: map<int, string>)
    ensures ShapeCodes([v], codes) == if Selected(v, codes) then [codes[v.specId]] else []
  {
    assert [v][1..] == [];
  }

  /** The codes of s + t are those of s followed by those of t: the list keeps
      the order of the values. */
  lemma {:induction false} ShapeCodesAppend(s: seq<AttributeValue>, t: seq<AttributeValue>, codes: map<int, string>)
    ensures ShapeCodes(s + t, codes) == ShapeCodes(s, codes) + ShapeCodes(t, codes)
  {
    if s == [] {
      assert s + t == t;
    } else {
      var head := if Selected(s[0], codes) then [codes[s[0].specId]] else [];
      ShapeCodesAppend(s[1..], t, codes);
      assert (s + t)[0] == s[0];
      assert (s + t)[1..] == s[1..] + t;
      assert ShapeCodes(s + t, codes) == head + ShapeCodes(s[1..] + t, codes);
      assert ShapeCodes(s, codes) == head + ShapeCodes(s[1..], codes);
      assert head + (ShapeCodes(s[1..], codes) + ShapeCodes(t, codes))
          == (head + ShapeCodes(s[1..], codes)) + ShapeCodes(t, codes);
    }
  }

  /** The first code of a shape, the one that chooses its reconstruction, is the
      name of its first selected value. */
  lemma {:induction false} ShapeCodesFirst(values: seq<AttributeValue>, codes: map<int, string>, j: nat)
    requires j < |values| && Selected(values[j], codes)
    requires forall k | 0 <= k < j :: !Selected(values[k], codes)
    ensures |ShapeCodes(values, codes)| > 0 && ShapeCodes(values, codes)[0] == codes[values[j].specId]
  {
    if j > 0 {
      assert forall k | 0 <= k < j - 1 :: values[1..][k] == values[k + 1];
      ShapeCodesFirst(values[1..], codes, j - 1);
    }
  }

  predicate LabelsKnown(shapes: seq<JobShape>, labels: map<int, Label>)
  {
    forall i :: 0 <= i < |shapes| ==> shapes[i].labelId in labels
  }

  /** The record stored for a shape: its codes, type, label colour and points. */
  function ToRecord(shape: JobShape, labels: map<int, Label>, codes: map<int, string>): ShapeRecord
    requires shape.labelId in labels
  {
    ShapeRecord(ShapeCodes(shape.attributes, codes), shape.shapeType,
                labels[shape.labelId].color, shape.points)
  }

  function FramesOf(shapes: seq<JobShape>): set<int>
  {
    set i | 0 <= i < |shapes| :: shapes[i].frame
  }

  /** The records of the shapes on frame f, in input order. */
  function FrameRecords(shapes: seq<JobShape>, labels: map<int, Label>, codes: map<int, string>, f: int)
    : (r: seq<ShapeRecord>)
    requires LabelsKnown(shapes, labels)
    ensures |r| <= |shapes|
    ensures r == [] <==> f !in FramesOf(shapes)
  {
    if shapes == [] then []
    else
      var prev := shapes[..|shapes| - 1];
      var last := shapes[|shapes| - 1];
      assert FramesOf(shapes) == FramesOf(prev) + {last.frame} by {
        assert forall i :: 0 <= i < |prev| ==> prev[i] == shapes[i];
      }
      FrameRecords(prev, labels, codes, f)
      + (if last.frame == f then [ToRecord(last, labels, codes)] else [])
  }

  /** The loop of get_job_annotations: one list per frame that has shapes, to
      which each shape's record is appended in input order. */
  method GroupByFrame(shapes: seq<JobShape>, labels: map<int, Label>, codes: map<int, string>)
    returns (annotations: map<int, seq<ShapeRecord>>)
    requires LabelsKnown(shapes, labels)
    ensures annotations.Keys == FramesOf(shapes)
    ensures forall f | f in annotations :: annotations[f] == FrameRecords(shapes, labels, codes, f)
  {
    annotations := map[];
    var i := 0;
    while i < |shapes|
      invariant 0 <= i <= |shapes|
      invariant annotations.Keys == FramesOf(shapes[..i])
      invariant forall f | f in annotations :: annotations[f] == FrameRecords(shapes[..i], labels, codes, f)
    {
      var shape := shapes[i];
      var record := ToRecord(shape, labels, codes);
      FrameRecordsSnoc(shapes, labels, codes, i);
      ghost var before := annotations;
      if shape.frame !in annotations {
        assert FrameRecords(shapes[..i], labels, codes, shape.frame) == [];
        annotations := annotations[shape.frame := [record]];
      } else {
        annotations := annotations[shape.frame := annotations[shape.frame] + [record]];
      }
      forall f | f in annotations
        ensures annotations[f] == FrameRecords(shapes[..i + 1], labels, codes, f)
      {
        if f != shape.frame {
          assert annotations[f] == before[f];
        }
      }
      i := i + 1;
    }
    assert shapes[..i] == shapes;
  }

  lemma FrameRecordsSnoc(shapes: seq<JobShape>, labels: map<int, Label>, codes: map<int, string>, i: nat)
    requires LabelsKnown(shapes, labels) && i < |shapes|
    ensures LabelsKnown(shapes[..i], labels) && LabelsKnown(shapes[..i + 1], labels)
    ensures FramesOf(shapes[..i + 1]) == FramesOf(shapes[..i]) + {shapes[i].frame}
    ensures forall f ::
      FrameRecords(shapes[..i + 1], labels, codes, f) ==
        FrameRecords(shapes[..i], labels, codes, f)
        + (if shapes[i].frame == f then [ToRecord(shapes[i], labels, codes)] else [])
  {
    assert shapes[..i + 1][..i] == shapes[..i];
  }

  lemma LabelsKnownAppend(s: seq<JobShape>, t: seq<JobShape>, labels: map<int, Label>)
    requires LabelsKnown(s, labels) && LabelsKnown(t, labels)
    ensures LabelsKnown(s + t, labels)
  {
    forall i | 0 <= i < |s + t| ensures (s + t)[i].labelId in labels {
      if i < |s| { assert (s + t)[i] == s[i]; } else { assert (s + t)[i] == t[i - |s|]; }
    }
  }

  /** Grouping distributes over concatenation: the records of later shapes come
      after those of earlier ones. */
  lemma {:induction false} FrameRecordsAppend(
    s: seq<JobShape>, t: seq<JobShape>, labels: map<int, Label>, codes: map<int, string>, f: int)
    requires LabelsKnown(s, labels) && LabelsKnown(t, labels)
    ensures LabelsKnown(s + t, labels)
    ensures FrameRecords(s + t, labels, codes, f) ==
      FrameRecords(s, labels, codes, f) + FrameRecords(t, labels, codes, f)
  {
    LabelsKnownAppend(s, t, labels);
    if t == [] {
      assert s + t == s;
    } else {
      var t' := t[..|t| - 1];
      FrameRecordsAppend(s, t', labels, codes, f);
      assert (s + t)[..|s + t| - 1] == s + t';
    }
  }

  /** Every shape is kept exactly once: under its own frame, after the records
      of the shapes before it and before those of the shapes after it, and in no
      other frame's list. */
  lemma EachShapeOnce(shapes: seq<JobShape>, labels: map<int, Label>, codes: map<int, string>, i: nat, f: int)
    requires LabelsKnown(shapes, labels) && i < |shapes|
    ensures FrameRecords(shapes, labels, codes, f) ==
      FrameRecords(shapes[..i], labels, codes, f)
      + (if shapes[i].frame == f then [ToRecord(shapes[i], labels, codes)] else [])
      + FrameRecords(shapes[i + 1..], labels, codes, f)
  {
    var pre, x, post := shapes[..i], shapes[i], shapes[i + 1..];
    assert shapes == pre + [x] + post;
    FrameRecordsAppend(pre, [x], labels, codes, f);
    assert [x][..0] == [];
    FrameRecordsAppend(pre + [x], post, labels, codes, f);
  }

  /** Every visibility code of a record is one of "1" to "4". */
  predicate CodesOnly(rec: ShapeRecord)
  {
    forall n :: 0 <= n < |rec.attribute| ==> IsCode(rec.attribute[n])
  }

  /** Every record grouped with the filtered code map carries only codes "1" to
      "4", so each frame's list meets what drawing it requires. */
  lemma {:induction false} GroupedRecordsAreDrawable(
    shapes: seq<JobShape>, labels: map<int, Label>, projectLabels: seq<Label>, f: int)
    requires LabelsKnown(shapes, labels)
    ensures forall k :: 0 <= k < |FrameRecords(shapes, labels, CodeAttributes(projectLabels), f)| ==>
      && CodesOnly(FrameRecords(shapes, labels, CodeAttributes(projectLabels), f)[k])
      && HasKnownCode(FrameRecords(shapes, labels, CodeAttributes(projectLabels), f)[k])
  {
    if shapes != [] {
      var prev := shapes[..|shapes| - 1];
      var last := shapes[|shapes| - 1];
      GroupedRecordsAreDrawable(prev, labels, projectLabels, f);
      var codes := CodeAttributes(projectLabels);
      var rec := ToRecord(last, labels, codes);
      forall n | 0 <= n < |rec.attribute| ensures IsCode(rec.attribute[n]) {
        var id :| id in codes && codes[id] == rec.attribute[n];
      }
      assert CodesOnly(rec) && HasKnownCode(rec);
      var r := FrameRecords(shapes, labels, codes, f);
      var r' := FrameRecords(prev, labels, codes, f);
      assert r == r' + (if last.frame == f then [rec] else []);
      forall k | 0 <= k < |r| ensures CodesOnly(r[k]) && HasKnownCode(r[k]) {
        if k < |r'| { assert r[k] == r'[k]; } else { assert r[k] == rec; }
      }
    }
  }
}
