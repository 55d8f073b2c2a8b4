/** The clarification record of src/hitl/types.ts. */
module Hitl {
  import opened Base

  const MAX_SETTLED := 4

  datatype Source = User | Assumed | Knowledge

  datatype Choice = Choice(name: string, description: Option<string>)

  datatype Clarification = Clarification(
    id: string, question: string, header: string, why: string, options: seq<Choice>, default: Option<string>,
    blocking: bool, answer: Option<string>, answeredAt: Option<int>, source: Option<Source>, evidence: Option<string>)

  predicate IsSettled(c: Clarification) { c.source == Some(Knowledge) }
}
