// The stream helpers of the chat front end: turning the chunks a model
// streams back into the text the chat window shows, and finding the
// retrieved context among them (src/app_utils.py).

module AppUtils {
  import opened Wrappers
  import opened Errors
  import opened Sequences

  /** A value inside a streamed chunk: text, a nested dictionary, a list, or Python's None. */
  datatype Item = Text(text: string) | Dict(entries: map<string, Item>) | List(elems: seq<Item>) | NoneValue

  /** One streamed chunk: a dictionary from key to value. */
  type Chunk = map<string, Item>

  /**
   * What a consumer that reads a generator to its end sees: the values it
   * yields, in order, and the exception it stops with, if any.
   */
  datatype Drained = Drained(yielded: seq<Item>, raised: Option<Error>)

  /** `chunk["message"]["content"]`: a missing key is a KeyError, indexing a value that is not a dictionary a TypeError. */
  function MessageContent(chunk: Chunk): (r: Result<Item, Error>)
    ensures r.Success? <==> "message" in chunk && chunk["message"].Dict? && "content" in chunk["message"].entries
    ensures r.Success? ==> r.value == chunk["message"].entries["content"]
    ensures "message" !in chunk ==> r == Failure(KeyError(["message"]))
    ensures "message" in chunk && !chunk["message"].Dict? ==> r == Failure(TypeError)
    ensures "message" in chunk && chunk["message"].Dict? && "content" !in chunk["message"].entries ==>
      r == Failure(KeyError(["content"]))
  {
    if "message" !in chunk then Failure(KeyError(["message"]))
    else match chunk["message"]
      case Dict(entries) =>
        if "content" in entries then Success(entries["content"]) else Failure(KeyError(["content"]))
      case _ => Failure(TypeError)
  }

  /**
   * The ollama branch of `stream_parser` (src/app_utils.py:24-26): one
   * message content per chunk, in stream order, until a chunk without one
   * raises.
   */
  function OllamaStream(stream: seq<Chunk>): (d: Drained)
    ensures |d.yielded| <= |stream|
    ensures forall i :: 0 <= i < |d.yielded| ==> MessageContent(stream[i]) == Success(d.yielded[i])
    ensures d.raised.None? ==> |d.yielded| == |stream|
    ensures d.raised.Some? ==>
      |d.yielded| < |stream| && MessageContent(stream[|d.yielded|]) == Failure(d.raised.value)
    decreases |stream|
  {
    if stream == [] then Drained([], None)
    else match MessageContent(stream[0])
      case Failure(e) => Drained([], Some(e))
      case Success(content) =>
        var rest := OllamaStream(stream[1..]);
        Drained([content] + rest.yielded, rest.raised)
  }

  /** The ollama branch runs to the end exactly when every chunk carries a message content. */
  lemma OllamaStreamCompletes(stream: seq<Chunk>)
    ensures OllamaStream(stream).raised.None? <==> forall i :: 0 <= i < |stream| ==> MessageContent(stream[i]).Success?
  {
  }

  predicate HasAnswer(chunk: Chunk) {
    "answer" in chunk
  }

  /** `chunk["answer"]`, read only on chunks that carry one; a chunk without an answer gives `NoneValue`. */
  function AnswerOf(chunk: Chunk): Item {
    if "answer" in chunk then chunk["answer"] else NoneValue
  }

  /** The langchain branch of `stream_parser` (src/app_utils.py:27-30): the answer of each chunk that has one, in order. */
  function Answers(stream: seq<Chunk>): (r: seq<Item>)
    ensures |r| <= |stream|
    ensures forall x :: x in r ==> exists i :: 0 <= i < |stream| && "answer" in stream[i] && stream[i]["answer"] == x
    decreases |stream|
  {
    if stream == [] then []
    else if "answer" in stream[0] then [stream[0]["answer"]] + Answers(stream[1..])
    else Answers(stream[1..])
  }

  /** The langchain branch works chunk by chunk: what two stretches of stream yield is what each yields, in order. */
  lemma {:induction false} AnswersAppend(a: seq<Chunk>, b: seq<Chunk>)
    ensures Answers(a + b) == Answers(a) + Answers(b)
    decreases |a|
  {
    if a != [] {
      assert (a + b)[0] == a[0];
      assert (a + b)[1..] == a[1..] + b;
      AnswersAppend(a[1..], b);
    } else {
      assert a + b == b;
    }
  }

  /** The langchain branch is a filter on "answer" followed by a lookup of that key. */
  lemma {:induction false} AnswersIsFilterMap(stream: seq<Chunk>)
    ensures Answers(stream) == MapSeq(Filter(stream, HasAnswer), AnswerOf)
    decreases |stream|
  {
    if stream != [] {
      var init, last := stream[..|stream| - 1], stream[|stream| - 1];
      assert stream == init + [last];
      AnswersIsFilterMap(init);
      AnswersAppend(init, [last]);
      assert [last][1..] == [];
      var kept := Filter(init, HasAnswer);
      if HasAnswer(last) {
        assert MapSeq(kept + [last], AnswerOf) == MapSeq(kept, AnswerOf) + [AnswerOf(last)];
      }
    }
  }

  /**
   * `stream_parser` (src/app_utils.py:6-32) read to its end. The ollama
   * branch yields a message content per chunk; the langchain branch yields
   * the answers and never raises; any other model type raises
   * NotImplementedError before yielding anything.
   */
  function StreamParser(stream: seq<Chunk>, modelType: string): (d: Drained)
    ensures modelType == "ollama" ==>
      && |d.yielded| <= |stream|
      && (forall i :: 0 <= i < |d.yielded| ==> MessageContent(stream[i]) == Success(d.yielded[i]))
      && (d.raised.None? <==> forall i :: 0 <= i < |stream| ==> MessageContent(stream[i]).Success?)
      && (d.raised.None? ==> |d.yielded| == |stream|)
      && (d.raised.Some? ==> |d.yielded| < |stream| && MessageContent(stream[|d.yielded|]) == Failure(d.raised.value))
    ensures modelType == "langchain" ==>
      d.raised.None? && d.yielded == MapSeq(Filter(stream, HasAnswer), AnswerOf) && |d.yielded| <= |stream|
    ensures modelType != "ollama" && modelType != "langchain" ==>
      d.yielded == [] && d.raised == Some(NotImplementedError)
  {
    if modelType == "ollama" then
      OllamaStreamCompletes(stream);
      OllamaStream(stream)
    else if modelType == "langchain" then
      AnswersIsFilterMap(stream);
      Drained(Answers(stream), None)
    else
      Drained([], Some(NotImplementedError))
  }

  /**
   * `get_context` (src/app_utils.py:88-103): the "context" value of the
   * first chunk that has one. None stands for the function falling off the
   * end of the stream without returning.
   */
  function GetContext(stream: seq<Chunk>): (r: Option<Item>)
    ensures r.None? <==> forall i :: 0 <= i < |stream| ==> "context" !in stream[i]
    ensures r.Some? ==>
      exists i :: 0 <= i < |stream| && "context" in stream[i] && r.value == stream[i]["context"] &&
        forall j :: 0 <= j < i ==> "context" !in stream[j]
    decreases |stream|
  {
    if stream == [] then None
    else if "context" in stream[0] then Some(stream[0]["context"])
    else
      var r := GetContext(stream[1..]);
      assert forall i :: 1 <= i < |stream| ==> stream[i] == stream[1..][i - 1];
      r
  }

  /** The first chunk carrying "context" decides the result. */
  lemma GetContextFirstMatch(stream: seq<Chunk>, i: nat)
    requires i < |stream| && "context" in stream[i]
    requires forall j :: 0 <= j < i ==> "context" !in stream[j]
    ensures GetContext(stream) == Some(stream[i]["context"])
  {
    var r := GetContext(stream);
    var k :| 0 <= k < |stream| && "context" in stream[k] && r.value == stream[k]["context"] &&
      forall j :: 0 <= j < k ==> "context" !in stream[j];
    assert k == i;
  }

  /** Chunks after the first one carrying "context" are never looked at. */
  lemma GetContextIgnoresLater(a: seq<Chunk>, b: seq<Chunk>)
    requires exists i :: 0 <= i < |a| && "context" in a[i]
    ensures GetContext(a + b) == GetContext(a)
  {
    var r := GetContext(a);
    var i :| 0 <= i < |a| && "context" in a[i] && r.value == a[i]["context"] &&
      forall j :: 0 <= j < i ==> "context" !in a[j];
    assert (a + b)[i] == a[i];
    assert forall j :: 0 <= j < i ==> (a + b)[j] == a[j];
    GetContextFirstMatch(a + b, i);
  }
}
