/** The `serialnum` object of part1/chapter6/main.js: a counter behind an
    accessor property `next` that hands out strictly increasing serial
    numbers and can only be moved forward. */
module SerialNum {

  /** The message of the error thrown by a write that would not raise the counter. */
  const DecreaseError: string := "serial number can only be set to a larger value"

  /** One access to the `next` property: a read, or a write of a value. */
  datatype Access = Read | Write(value: int)

  /** What an access gives back: the number a read returns, a write that was
      stored, or a write that threw. */
  datatype Outcome = Returned(value: int) | Stored | Thrown(message: string)

  /** The effect of one access on a counter at n: the new counter and the
      outcome. A successful access raises the counter, a failed one leaves it
      alone, and only a write that does not raise it fails. */
  function Step(n: int, a: Access): (r: (int, Outcome))
    ensures n <= r.0
    ensures r.0 == n <==> r.1.Thrown?
    ensures r.1.Thrown? <==> a.Write? && a.value <= n
  {
    match a
    case Read => (n + 1, Returned(n))
    case Write(m) => if m > n then (m, Stored) else (n, Thrown(DecreaseError))
  }

  /** The serial numbers an outcome hands out. */
  function Emitted(o: Outcome): (r: seq<int>) {
    if o.Returned? then [o.value] else []
  }

  /** The counter after a sequence of accesses, starting from n. */
  function Run(n: int, accesses: seq<Access>): (r: int)
    decreases |accesses|
  {
    if accesses == [] then n else Run(Step(n, accesses[0]).0, accesses[1..])
  }

  /** The serial numbers returned by the reads of a sequence of accesses,
      starting from n, in order. */
  function Issued(n: int, accesses: seq<Access>): (r: seq<int>)
    decreases |accesses|
  {
    if accesses == [] then []
    else
      var (n', o) := Step(n, accesses[0]);
      Emitted(o) + Issued(n', accesses[1..])
  }

  predicate StrictlyIncreasing(s: seq<int>) {
    forall i, j :: 0 <= i < j < |s| ==> s[i] < s[j]
  }

  /** No sequence of reads and writes ever lowers the counter. */
  lemma {:induction false} RunNeverDecreases(n: int, accesses: seq<Access>)
    ensures n <= Run(n, accesses)
    decreases |accesses|
  {
    if accesses != [] {
      RunNeverDecreases(Step(n, accesses[0]).0, accesses[1..]);
    }
  }

  /** The numbers handed out by any sequence of accesses are strictly
      increasing, no smaller than the starting counter and all below the
      final counter, so none is handed out twice. */
  lemma {:induction false} IssuedIncreasing(n: int, accesses: seq<Access>)
    ensures StrictlyIncreasing(Issued(n, accesses))
    ensures forall i :: 0 <= i < |Issued(n, accesses)| ==> n <= Issued(n, accesses)[i] < Run(n, accesses)
    decreases |accesses|
  {
    if accesses != [] {
      var (n', o) := Step(n, accesses[0]);
      IssuedIncreasing(n', accesses[1..]);
      RunNeverDecreases(n', accesses[1..]);
    }
  }

  /** Appending one access runs it on the counter reached so far. */
  lemma {:induction false} RunAppend(n: int, accesses: seq<Access>, a: Access)
    ensures Run(n, accesses + [a]) == Step(Run(n, accesses), a).0
    ensures Issued(n, accesses + [a]) == Issued(n, accesses) + Emitted(Step(Run(n, accesses), a).1)
    decreases |accesses|
  {
    if accesses == [] {
      assert [] + [a] == [a];
    } else {
      assert (accesses + [a])[0] == accesses[0];
      assert (accesses + [a])[1..] == accesses[1..] + [a];
      RunAppend(Step(n, accesses[0]).0, accesses[1..], a);
    }
  }

  /** Two reads in a row return consecutive numbers. */
  lemma ConsecutiveReads(n: int)
    ensures Issued(n, [Read, Read]) == [n, n + 1]
    ensures Run(n, [Read, Read]) == n + 2
  {
  }

  /** The counter object. Its data property `_n` is the field `n`; the ghost
      fields record the accesses so far and the numbers they handed out. */
  class SerialNumber {
    var n: int
    ghost var history: seq<Access>
    ghost var issued: seq<int>

    /** The counter and the numbers handed out are those of replaying the
        history from 0. */
    ghost predicate Valid()
      reads this
    {
      n == Run(0, history) && issued == Issued(0, history)
    }

    /** The object literal: `_n` starts at 0. */
    constructor ()
      ensures Valid() && n == 0 && history == [] && issued == []
    {
      n := 0;
      history := [];
      issued := [];
    }

    /** The getter `next`: returns the current counter, then increments it.
        The number returned exceeds every number handed out before. */
    method Next() returns (v: int)
      requires Valid()
      modifies this
      ensures Valid() && history == old(history) + [Read]
      ensures v == old(n) && n == old(n) + 1
      ensures issued == old(issued) + [v]
      ensures StrictlyIncreasing(issued)
      ensures forall i :: 0 <= i < |issued| ==> issued[i] < n
    {
      v := n;
      n := n + 1;
      RunAppend(0, history, Read);
      history := history + [Read];
      issued := issued + [v];
      IssuedIncreasing(0, history);
    }

    /** The setter `next`: stores m when it exceeds the counter, and
        otherwise throws, leaving the counter unchanged. */
    method SetNext(m: int) returns (o: Outcome)
      requires Valid()
      modifies this
      ensures Valid() && history == old(history) + [Write(m)] && issued == old(issued)
      ensures m > old(n) ==> n == m && o == Stored
      ensures m <= old(n) ==> n == old(n) && o == Thrown(DecreaseError)
      ensures old(n) <= n
    {
      RunAppend(0, history, Write(m));
      if m > n {
        n := m;
        o := Stored;
      } else {
        o := Thrown(DecreaseError);
      }
      history := history + [Write(m)];
    }
  }

  /** The script after the object: set `next` to 10, which is stored without
      throwing, then read it twice, getting 10 and then 11. */
  method Driver() returns (stored: Outcome, first: int, second: int)
    ensures stored == Stored
    ensures first == 10 && second == 11
  {
    var serial := new SerialNumber();
    stored := serial.SetNext(10);
    first := serial.Next();
    second := serial.Next();
  }
}
