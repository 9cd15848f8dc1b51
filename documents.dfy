/** Values shared by the ingestion path, the answer pipeline and the chat front end. */
module Documents {

  datatype Option<+T> = None | Some(value: T) {
    function GetOr(default: T): T {
      match this
      case Some(v) => v
      case None => default
    }
  }

  /** Why a pipeline node could not run. */
  datatype Failure =
    /** `state['messages'][-1]` on a thread whose message list is empty (Python's IndexError). */
    | EmptyHistory

  datatype Result<+T> = Ok(value: T) | Err(failure: Failure)

  /** A chunk of text with its `source` metadata entry, when the loader set one. */
  datatype Doc = Doc(content: string, source: Option<string>)

  /** Who wrote a message of the conversation: the user or the assistant. */
  datatype Role = Human | Ai

  datatype Message = Message(role: Role, content: string)

  /** Python's `[f(i, d) for i, d in enumerate(docs)]`, with the index shifted by `from`. */
  function Numbered<T>(docs: seq<Doc>, from: nat, f: (nat, Doc) -> T): (r: seq<T>)
    ensures |r| == |docs|
    ensures forall i :: 0 <= i < |docs| ==> r[i] == f(from + i, docs[i])
    decreases |docs|
  {
    if docs == [] then [] else [f(from, docs[0])] + Numbered(docs[1..], from + 1, f)
  }
}
