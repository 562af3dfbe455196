/** `format_retrieved_chunks`: the passages the book search returns, numbered from 1 and laid out
    one after another as the context of the final prompt. Each search result is a dict; its
    "text" is read with `result.get('text', '')`, which raises AttributeError on anything that is
    not a dict. */
module TextProcessing {
  import opened Wrappers
  import opened Json
  import Decimal

  /** `f"Passage {k}:\n{result.get('text', '')}\n\n"`. */
  function Passage(k: int, result: Value): Result<string> {
    var text :- Get(result, "text", Str(""));
    Ok("Passage " + Decimal.IntToString(k) + ":\n" + ToStr(text) + "\n\n")
  }

  /** The passages of `results`, the first numbered `n`, concatenated; the first result that is
      not a dict raises. */
  function PassagesFrom(results: seq<Value>, n: int): Result<string>
    decreases |results|
  {
    if results == [] then Ok("")
    else
      var head :- Passage(n, results[0]);
      var tail :- PassagesFrom(results[1..], n + 1);
      Ok(head + tail)
  }

  /** What `format_retrieved_chunks(results)` returns. */
  function Formatted(results: seq<Value>): Result<string> {
    PassagesFrom(results, 1)
  }

  /** The loop of `format_retrieved_chunks`, which adds one passage per result. */
  method FormatRetrievedChunks(results: seq<Value>) returns (r: Result<string>)
    ensures r == Formatted(results)
  {
    var text := "";
    var i := 0;
    while i < |results|
      invariant 0 <= i <= |results|
      invariant PassagesFrom(results[..i], 1) == Ok(text)
    {
      var piece := Passage(i + 1, results[i]);
      StepLaw(results, i, text);
      if piece.Err? {
        return Err(piece.error);
      }
      text := text + piece.value;
      i := i + 1;
    }
    assert results[..i] == results;
    return Ok(text);
  }

  /** One step of the loop: the next passage either raises, and then so does the whole
      formatting, or extends the text formatted so far. */
  lemma StepLaw(results: seq<Value>, i: nat, text: string)
    requires i < |results|
    requires PassagesFrom(results[..i], 1) == Ok(text)
    ensures Passage(i + 1, results[i]).Err? ==>
      Formatted(results) == Err(Passage(i + 1, results[i]).error)
    ensures Passage(i + 1, results[i]).Ok? ==>
      PassagesFrom(results[..i + 1], 1) == Ok(text + Passage(i + 1, results[i]).value)
  {
    assert results[..i + 1] == results[..i] + [results[i]];
    AppendLaw(results[..i], results[i], 1);
    if Passage(i + 1, results[i]).Err? {
      ErrorPersists(results[..i + 1], results[i + 1..], 1);
      assert results[..i + 1] + results[i + 1..] == results;
    }
  }

  /** Adding a result at the end adds its passage, numbered after the others (or keeps the
      error an earlier result raised). */
  lemma {:induction false} AppendLaw(results: seq<Value>, last: Value, n: int)
    ensures PassagesFrom(results + [last], n) ==
      (var front :- PassagesFrom(results, n);
       var piece :- Passage(n + |results|, last);
       Ok(front + piece))
    decreases |results|
  {
    if results == [] {
      assert [last][1..] == [];
      var p := Passage(n, last);
      if p.Ok? {
        assert p.value + "" == "" + p.value;
      }
    } else {
      assert (results + [last])[0] == results[0];
      assert (results + [last])[1..] == results[1..] + [last];
      AppendLaw(results[1..], last, n + 1);
      var head := Passage(n, results[0]);
      var tail := PassagesFrom(results[1..], n + 1);
      var piece := Passage(n + |results|, last);
      if head.Ok? && tail.Ok? && piece.Ok? {
        assert head.value + (tail.value + piece.value) == (head.value + tail.value) + piece.value;
      }
    }
  }

  /** Once a result has raised, the results after it change nothing. */
  lemma {:induction false} ErrorPersists(results: seq<Value>, more: seq<Value>, n: int)
    requires PassagesFrom(results, n).Err?
    ensures PassagesFrom(results + more, n) == PassagesFrom(results, n)
    decreases |results|
  {
    assert (results + more)[0] == results[0];
    assert (results + more)[1..] == results[1..] + more;
    if Passage(n, results[0]).Ok? {
      ErrorPersists(results[1..], more, n + 1);
    }
  }

  /** No results, no context. */
  lemma FormattedEmpty()
    ensures Formatted([]) == Ok("")
  {
  }

  /** Formatting succeeds exactly when every result is a dict. */
  lemma {:induction false} PassagesOkIff(results: seq<Value>, n: int)
    ensures PassagesFrom(results, n).Ok? <==> forall k :: 0 <= k < |results| ==> results[k].Dict?
    decreases |results|
  {
    if results != [] {
      PassagesOkIff(results[1..], n + 1);
      assert forall k :: 0 < k < |results| ==> results[k] == results[1..][k - 1];
    }
  }

  /** A result without "text" still gets its header and number, with an empty body. */
  lemma PassageWithoutText(k: int, result: Value)
    requires result.Dict? && !HasKey(result.entries, "text")
    ensures Passage(k, result) == Ok("Passage " + Decimal.IntToString(k) + ":\n\n\n")
  {
    var header := "Passage " + Decimal.IntToString(k) + ":\n";
    assert header + "" + "\n\n" == "Passage " + Decimal.IntToString(k) + ":\n\n\n";
  }

  /** A result whose "text" is a string shows that string verbatim. */
  lemma PassageWithText(k: int, result: Value, text: string)
    requires result.Dict? && Lookup(result.entries, "text") == Some(Str(text))
    ensures Passage(k, result) == Ok("Passage " + Decimal.IntToString(k) + ":\n" + text + "\n\n")
  {
  }
}
