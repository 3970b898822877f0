/** The yes/no prompt of utils/utils.go: one answer is read per attempt and
    classified against a fixed affirmative and a fixed negative word list. */
module Confirm {

  /** One attempt to read an answer: a word, or a read failure (end of input
      included). */
  datatype ReadResult = Line(text: string) | ReadError

  /** The pair the prompt returns: the answer and whether a read failed. */
  datatype Reply = Reply(answer: bool, readFailed: bool)

  /** A reply together with the number of reads it took. */
  datatype Asked = Asked(reply: Reply, consumed: nat)

  const YesAnswers: seq<string> := ["y", "Y", "yes", "Yes", "YES"]
  const NoAnswers: seq<string> := ["n", "N", "no", "No", "NO"]

  /** Exact, case-sensitive membership; every element is inspected. */
  function IsInSlice(word: string, slice: seq<string>): (r: bool)
    ensures r <==> exists i :: 0 <= i < |slice| && slice[i] == word
  {
    if |slice| == 0 then false
    else IsInSlice(word, slice[..|slice| - 1]) || slice[|slice| - 1] == word
  }

  /** A read that the prompt neither accepts, rejects nor defaults on: a
      non-empty word outside both lists. */
  predicate Retry(read: ReadResult)
  {
    read.Line? && read.text != "" && read.text !in YesAnswers && read.text !in NoAnswers
  }

  /** The prompt over a finite stream of reads; running out of reads behaves
      as a read error that consumes nothing. */
  function AskConfirmation(input: seq<ReadResult>, defaultAnswer: bool): (r: Asked)
    ensures r.consumed <= |input|
    ensures forall i :: 0 <= i < r.consumed - 1 ==> Retry(input[i])
    ensures r.consumed == 0 || Retry(input[r.consumed - 1]) ==>
              r.consumed == |input| && r.reply == Reply(defaultAnswer, true)
    ensures 0 < r.consumed && input[r.consumed - 1].ReadError? ==>
              r.reply == Reply(defaultAnswer, true)
    ensures 0 < r.consumed && input[r.consumed - 1].Line? && input[r.consumed - 1].text in YesAnswers ==>
              r.reply == Reply(true, false)
    ensures 0 < r.consumed && input[r.consumed - 1].Line? && input[r.consumed - 1].text in NoAnswers ==>
              r.reply == Reply(false, false)
    ensures 0 < r.consumed && input[r.consumed - 1] == Line("") ==>
              r.reply == Reply(defaultAnswer, false)
    decreases |input|
  {
    if |input| == 0 then Asked(Reply(defaultAnswer, true), 0)
    else match input[0]
      case ReadError => Asked(Reply(defaultAnswer, true), 1)
      case Line(response) =>
        if IsInSlice(response, YesAnswers) then Asked(Reply(true, false), 1)
        else if IsInSlice(response, NoAnswers) then Asked(Reply(false, false), 1)
        else if response == "" then Asked(Reply(defaultAnswer, false), 1)
        else
          var rest := AskConfirmation(input[1..], defaultAnswer);
          Asked(rest.reply, rest.consumed + 1)
  }

  /** The retry recursion unrolled into a loop with no retry bound. */
  method AskLoop(input: seq<ReadResult>, defaultAnswer: bool)
    returns (answer: bool, readFailed: bool, consumed: nat)
    ensures Asked(Reply(answer, readFailed), consumed) == AskConfirmation(input, defaultAnswer)
  {
    var i := 0;
    while true
      invariant 0 <= i <= |input|
      invariant AskConfirmation(input, defaultAnswer)
                == (var r := AskConfirmation(input[i..], defaultAnswer); Asked(r.reply, r.consumed + i))
      decreases |input| - i
    {
      if i == |input| {
        return defaultAnswer, true, i;
      }
      match input[i] {
        case ReadError =>
          return defaultAnswer, true, i + 1;
        case Line(response) =>
          if IsInSlice(response, YesAnswers) {
            return true, false, i + 1;
          } else if IsInSlice(response, NoAnswers) {
            return false, false, i + 1;
          } else if response == "" {
            return defaultAnswer, false, i + 1;
          }
      }
      assert input[i..][1..] == input[i + 1..];
      i := i + 1;
    }
  }

  /** No word is both an affirmative and a negative answer. */
  lemma YesNoDisjoint(word: string)
    ensures !(IsInSlice(word, YesAnswers) && IsInSlice(word, NoAnswers))
  {
  }

  /** Unrecognised words in front of the input only delay the reply: the
      result is the one for the remaining input, with the skipped reads counted. */
  lemma {:induction false} SkipsUnrecognised(garbage: seq<ReadResult>, rest: seq<ReadResult>, defaultAnswer: bool)
    requires forall i :: 0 <= i < |garbage| ==> Retry(garbage[i])
    ensures AskConfirmation(garbage + rest, defaultAnswer)
            == (var r := AskConfirmation(rest, defaultAnswer); Asked(r.reply, |garbage| + r.consumed))
    decreases |garbage|
  {
    if |garbage| > 0 {
      assert (garbage + rest)[1..] == garbage[1..] + rest;
      SkipsUnrecognised(garbage[1..], rest, defaultAnswer);
    } else {
      assert garbage + rest == rest;
    }
  }

  /** Once a read decides the prompt, nothing after it is read: appending
      further input leaves the result unchanged. */
  lemma {:induction false} NoReadAhead(input: seq<ReadResult>, tail: seq<ReadResult>, defaultAnswer: bool)
    requires AskConfirmation(input, defaultAnswer).consumed > 0
    requires !Retry(input[AskConfirmation(input, defaultAnswer).consumed - 1])
    ensures AskConfirmation(input + tail, defaultAnswer) == AskConfirmation(input, defaultAnswer)
    decreases |input|
  {
    assert (input + tail)[0] == input[0];
    if Retry(input[0]) {
      assert (input + tail)[1..] == input[1..] + tail;
      NoReadAhead(input[1..], tail, defaultAnswer);
    }
  }
}
