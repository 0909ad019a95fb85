/** What the services of both multi-service programs do to a request. */
module Marking {

  /** A Z in the first place. */
  function Process(text: string): string {
    if text == "" then "Z" else "Z" + text[1..]
  }

  /** The reply has a Z in front and is otherwise the request, character by character. */
  predicate IsMarked(request: string, reply: string) {
    && |reply| == (if request == "" then 1 else |request|)
    && reply[0] == 'Z'
    && forall i :: 1 <= i < |reply| ==> reply[i] == request[i]
  }

  lemma ProcessMarks(text: string)
    ensures IsMarked(text, Process(text))
  {
  }
}
