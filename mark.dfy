/** Marks: inventory tokens, and their display form
    `Mark[<id>] (<kind>, witness|token)`. */
module Marks {
  import opened Text

  datatype Mark = Mark(id: string, kind: string, isWitness: bool)

  /** A mark built without a witness flag: not a witness. */
  function NewMark(id: string, kind: string): (m: Mark)
    ensures m.id == id && m.kind == kind && !m.isWitness
  {
    Mark(id, kind, false)
  }

  /** The status word shown after the kind. */
  function Status(isWitness: bool): string {
    if isWitness then "witness" else "token"
  }

  /** `Mark.__str__`: opens with "Mark[", closes with ")" and is 11
      characters longer than the id, the kind and the status word together. */
  function Render(m: Mark): (r: string)
    ensures |r| == |m.id| + |m.kind| + |Status(m.isWitness)| + 11
    ensures r[..5] == "Mark[" && r[|r| - 1] == ')'
  {
    "Mark[" + m.id + "] (" + m.kind + ", " + Status(m.isWitness) + ")"
  }

  /** The rendering is the bracketed id, then the kind and the status word
      in parentheses. */
  lemma RenderLayout(m: Mark)
    ensures var r, h := Render(m), "Mark[" + m.id + "] (" + m.kind + ", ";
      |r| == |h| + |Status(m.isWitness)| + 1 &&
      r[..|h|] == h && r[|h|..|r| - 1] == Status(m.isWitness) && r[|r| - 1] == ')'
  {
    var h := "Mark[" + m.id + "] (" + m.kind + ", ";
    assert Render(m) == h + Status(m.isWitness) + ")";
  }

  /** "witness)" ends the rendering exactly for witness marks, and
      ", token)" exactly for the others. */
  lemma RenderStatus(m: Mark)
    ensures var r := Render(m);
      (|r| >= 8 && r[|r| - 8..] == "witness)") <==> m.isWitness
    ensures var r := Render(m);
      (|r| >= 8 && r[|r| - 8..] == ", token)") <==> !m.isWitness
  {
    var h := "Mark[" + m.id + "] (" + m.kind;
    var r := Render(m);
    assert r == h + ", " + Status(m.isWitness) + ")";
    if m.isWitness {
      assert r[|r| - 8..] == "witness)";
      assert r[|r| - 8..] != ", token)" by { assert r[|r| - 8] == 'w'; }
    } else {
      assert r[|r| - 8..] == ", token)";
      assert r[|r| - 8..] != "witness)" by { assert r[|r| - 8] == ','; }
    }
  }

  /** A mark built without a witness flag renders as a token. */
  lemma RenderDefault(id: string, kind: string)
    ensures Render(NewMark(id, kind)) == "Mark[" + id + "] (" + kind + ", token)"
  {
  }

  /** The recorded example: witness mark M-1 shows its bracketed id and the
      word "witness". */
  lemma RenderWitnessExample()
    ensures Contains(Render(Mark("M-1", "witness", true)), "Mark[M-1]")
    ensures Contains(Render(Mark("M-1", "witness", true)), "witness")
  {
    var r := Render(Mark("M-1", "witness", true));
    assert r == "Mark[M-1] (witness, witness)";
    assert OccursAt(r, "Mark[M-1]", 0);
    assert OccursAt(r, "witness", 11);
  }
}
