/** Contracts: public or secret agreements made of textual clauses, and
    their display form `Contract[<id>] <title> (public|secret) - <clauses>`. */
module Contracts {
  import opened Text

  datatype Contract = Contract(id: string, title: string, clauses: seq<string>, isPublic: bool)

  /** A contract built from an id and a title only: no clauses, public. */
  function NewContract(id: string, title: string): (c: Contract)
    ensures c.id == id && c.title == title
    ensures c.clauses == [] && c.isPublic
  {
    Contract(id, title, [], true)
  }

  /** The visibility word shown between parentheses. */
  function Visibility(isPublic: bool): string {
    if isPublic then "public" else "secret"
  }

  /** The clause part: the clauses separated by "; ", or "no clause". */
  function ClauseText(clauses: seq<string>): string {
    if clauses != [] then Join(clauses, "; ") else "no clause"
  }

  /** `Contract.__str__`: opens with "Contract[" and is 23 characters longer
      than the id, the title and the clause part together. */
  function Render(c: Contract): (r: string)
    ensures |r| == |c.id| + |c.title| + |ClauseText(c.clauses)| + 23
    ensures r[..9] == "Contract["
  {
    "Contract[" + c.id + "] " + c.title + " (" + Visibility(c.isPublic) + ") - " + ClauseText(c.clauses)
  }

  /** Everything up to the visibility word. */
  function Header(c: Contract): string {
    "Contract[" + c.id + "] " + c.title + " ("
  }

  /** Where the clause part starts: after the header, the six-letter
      visibility word and ") - ". */
  function TailStart(c: Contract): nat {
    |Header(c)| + 10
  }

  /** The rendering starts with the id and title in brackets and ends with
      the clause part, with the visibility word in between. */
  lemma RenderLayout(c: Contract)
    ensures |Render(c)| == TailStart(c) + |ClauseText(c.clauses)|
    ensures Render(c)[..|Header(c)|] == Header(c)
    ensures Render(c)[|Header(c)|..|Header(c)| + 6] == Visibility(c.isPublic)
    ensures Render(c)[|Header(c)| + 6..TailStart(c)] == ") - "
    ensures Render(c)[TailStart(c)..] == ClauseText(c.clauses)
  {
    var h, v := Header(c), Visibility(c.isPublic);
    assert Render(c) == h + v + ") - " + ClauseText(c.clauses);
  }

  /** The word "public" is shown exactly for public contracts and "secret"
      exactly for the others. */
  lemma RenderVisibility(c: Contract)
    ensures Render(c)[|Header(c)|..|Header(c)| + 6] == "public" <==> c.isPublic
    ensures Render(c)[|Header(c)|..|Header(c)| + 6] == "secret" <==> !c.isPublic
  {
    RenderLayout(c);
  }

  /** With no clauses the rendering ends in exactly "no clause". */
  lemma RenderNoClause(c: Contract)
    requires c.clauses == []
    ensures Render(c)[TailStart(c)..] == "no clause"
  {
    RenderLayout(c);
  }

  /** A single clause is shown verbatim, without a separator. */
  lemma RenderSingleClause(c: Contract)
    requires |c.clauses| == 1
    ensures Render(c)[TailStart(c)..] == c.clauses[0]
  {
    RenderLayout(c);
  }

  /** Clauses are shown in order: adding a clause to a contract that has
      some appends "; " and that clause to its rendering. */
  lemma RenderAddClause(c: Contract, clause: string)
    requires c.clauses != []
    ensures Render(c.(clauses := c.clauses + [clause])) == Render(c) + "; " + clause
  {
    JoinSnoc(c.clauses, clause, "; ");
  }

  /** The length of a rendering with clauses: each clause once, plus two
      characters of separator between neighbours. */
  lemma RenderLength(c: Contract)
    requires c.clauses != []
    ensures |Render(c)| == TailStart(c) + SumLengths(c.clauses) + 2 * (|c.clauses| - 1)
  {
    RenderLayout(c);
    JoinLength(c.clauses, "; ");
  }

  /** A contract built from an id and a title renders as public with no
      clause. */
  lemma RenderDefault(id: string, title: string)
    ensures Render(NewContract(id, title)) == "Contract[" + id + "] " + title + " (public) - no clause"
  {
  }

  /** The recorded example: a secret contract with clauses "a" and "b". */
  lemma RenderSecretExample()
    ensures Render(Contract("C-1", "Test", ["a", "b"], false)) == "Contract[C-1] Test (secret) - a; b"
  {
    var c := Contract("C-1", "Test", ["a", "b"], false);
    assert Join(c.clauses, "; ") == "a; b" by {
      assert Join(c.clauses[1..], "; ") == "b";
    }
    assert Render(c) == Header(c) + "secret" + ") - " + "a; b";
  }
}
