/** The re-prompting loop shared by the interactive sub-commands: read a line; stop if it is
    the `back` sentinel; stop if it is acceptable; otherwise ask again. Console input is a
    sequence of lines, and running out of lines is the Scanner's NoSuchElementException. */
module Prompt {
  import opened Results

  /** How a prompt loop ended: the input ran out, the user typed `back`, or a line was
      accepted as `value`. */
  datatype Answer<T> =
    | Exhausted
    | Back(rest: seq<string>)
    | Accepted(value: T, line: string, rest: seq<string>)

  /** `rest` is what is left of `inputs` once some lines have been read from the front. */
  predicate Suffix(rest: seq<string>, inputs: seq<string>)
    decreases |inputs|
  {
    rest == inputs || (|inputs| > 0 && Suffix(rest, inputs[1..]))
  }

  /** What is left after reading from what was left is what is left of the original input. */
  lemma {:induction false} SuffixTransitive(a: seq<string>, b: seq<string>, c: seq<string>)
    requires Suffix(a, b) && Suffix(b, c)
    ensures Suffix(a, c)
    decreases |c|
  {
    if b != c {
      SuffixTransitive(a, b, c[1..]);
    }
  }

  /** Every line left over is a line of the input. */
  lemma {:induction false} SuffixContains(rest: seq<string>, inputs: seq<string>)
    requires Suffix(rest, inputs)
    ensures forall x :: x in rest ==> x in inputs
    decreases |inputs|
  {
    if rest != inputs {
      SuffixContains(rest, inputs[1..]);
      assert forall x :: x in inputs[1..] ==> x in inputs;
    }
  }

  /** A suffix is the input with its first `|inputs| - |rest|` lines dropped. */
  lemma {:induction false} SuffixIsDrop(rest: seq<string>, inputs: seq<string>)
    requires Suffix(rest, inputs)
    ensures |rest| <= |inputs| && rest == inputs[|inputs| - |rest|..]
    decreases |inputs|
  {
    if rest != inputs {
      SuffixIsDrop(rest, inputs[1..]);
    }
  }

  /** The line was neither `back` nor acceptable, so it led to another prompt. */
  ghost predicate Rejects<T>(isBack: string -> bool, accept: string -> Option<T>, line: string) {
    !isBack(line) && accept(line).None?
  }

  /** Every line was rejected. */
  ghost predicate AllRejected<T>(lines: seq<string>, isBack: string -> bool, accept: string -> Option<T>) {
    forall j {:trigger Rejects(isBack, accept, lines[j])} :: 0 <= j < |lines| ==> Rejects(isBack, accept, lines[j])
  }

  /** Line `k` is the first line that ends the loop: every line before it was rejected, and
      it is either `back` or acceptable. */
  ghost predicate FirstAnswer<T>(inputs: seq<string>, isBack: string -> bool, accept: string -> Option<T>, k: int) {
    && 0 <= k < |inputs|
    && (forall j {:trigger Rejects(isBack, accept, inputs[j])} :: 0 <= j < k ==> Rejects(isBack, accept, inputs[j]))
    && (isBack(inputs[k]) || accept(inputs[k]).Some?)
  }

  /** Reads lines until one is `back` or acceptable. The answer names the line that ended
      the loop and the input left after it. */
  function Ask<T>(inputs: seq<string>, isBack: string -> bool, accept: string -> Option<T>): (a: Answer<T>)
    ensures a.Back? || a.Accepted? ==> |a.rest| < |inputs| && Suffix(a.rest, inputs)
    ensures a.Back? ==> isBack(inputs[|inputs| - |a.rest| - 1])
    ensures a.Accepted? ==>
      && a.line == inputs[|inputs| - |a.rest| - 1] && !isBack(a.line) && accept(a.line) == Some(a.value)
    ensures |inputs| > 0 && isBack(inputs[0]) ==> a == Back(inputs[1..])
    ensures a.Exhausted? ==> AllRejected(inputs, isBack, accept)
    ensures a.Back? || a.Accepted? ==> FirstAnswer(inputs, isBack, accept, |inputs| - |a.rest| - 1)
    decreases |inputs|
  {
    if |inputs| == 0 then Exhausted
    else if isBack(inputs[0]) then Back(inputs[1..])
    else
      match accept(inputs[0])
      case Some(v) => Accepted(v, inputs[0], inputs[1..])
      case None =>
        var a := Ask(inputs[1..], isBack, accept);
        assert Rejects(isBack, accept, inputs[0]);
        assert forall j {:trigger Rejects(isBack, accept, inputs[j])} :: 1 <= j < |inputs| ==>
          Rejects(isBack, accept, inputs[j]) == Rejects(isBack, accept, inputs[1..][j - 1]);
        if a.Exhausted? then a
        else
          assert inputs[1..][|inputs| - |a.rest| - 2] == inputs[|inputs| - |a.rest| - 1];
          a
  }
}
