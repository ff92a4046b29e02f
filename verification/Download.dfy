/**
 The chunked download: reads into a buffer and writes what has come to the destination, until the
 source ends, something fails, or the download is cancelled.
 */
module Download {

  datatype Failure = NoFailure | EndOfFile | ReadFailure

  // One turn of the loop as the outside world plays it: whether the context is cancelled by then,
  // what the reader puts into the buffer and says with it, and whether the writer fails after it
  // has taken so many bytes.  A reader may hand out data together with the end of the file, or
  // with an error, and may hand out nothing at all.
  datatype Turn = Turn(cancelled: bool, data: string, says: Failure, writeFails: bool, taken: nat)

  // What the source hands out in the first n turns.
  function Source(turns: seq<Turn>): string {
    if turns == [] then "" else turns[0].data + Source(turns[1..])
  }

  // A turn after which the download goes on.
  predicate GoesWell(t: Turn) {
    !t.cancelled && (t.data != "" ==> !t.writeFails)
  }

  // Turn i ends the download well: the end of the file, reached before anything went wrong.
  predicate EndsAt(turns: seq<Turn>, i: nat) {
    && i < |turns| && turns[i].says == EndOfFile
    && (forall j :: 0 <= j < i ==> turns[j].says == NoFailure)
    && (forall j :: 0 <= j <= i ==> GoesWell(turns[j]))
  }

  lemma {:induction false} SourceExtends(turns: seq<Turn>, i: nat)
    requires i < |turns|
    ensures Source(turns[..i + 1]) == Source(turns[..i]) + turns[i].data
  {
    if i == 0 {
      assert turns[..1] == [turns[0]] && turns[..0] == [];
      assert Source([turns[0]]) == turns[0].data + Source([]);
    } else {
      SourceExtends(turns[1..], i - 1);
      assert turns[..i + 1][1..] == turns[1..][..i] && turns[..i][1..] == turns[1..][..i - 1];
    }
  }

  lemma {:induction false} SourceIsPrefix(turns: seq<Turn>, i: nat)
    requires i <= |turns|
    ensures Source(turns[..i]) <= Source(turns)
  {
    if i > 0 {
      SourceIsPrefix(turns[1..], i - 1);
      assert turns[..i][1..] == turns[1..][..i - 1];
    }
  }

  // --- Any chunking will do. ---

  function Joined(chunks: seq<string>): string {
    if chunks == [] then "" else chunks[0] + Joined(chunks[1..])
  }

  // A source that hands out `chunks`, some perhaps empty, and `last` together with the end of the file.
  function Played(chunks: seq<string>, last: string): seq<Turn> {
    if chunks == [] then [Turn(false, last, EndOfFile, false, 0)]
    else [Turn(false, chunks[0], NoFailure, false, 0)] + Played(chunks[1..], last)
  }

  lemma {:induction false} EveryChunkingEndsWell(chunks: seq<string>, last: string)
    ensures |Played(chunks, last)| == |chunks| + 1 && EndsAt(Played(chunks, last), |chunks|)
    ensures Source(Played(chunks, last)) == Joined(chunks) + last
  {
    if chunks != [] {
      EveryChunkingEndsWell(chunks[1..], last);
      var turns, rest := Played(chunks, last), Played(chunks[1..], last);
      assert turns[1..] == rest;
      forall j | 0 <= j <= |chunks| ensures GoesWell(turns[j]) && (j < |chunks| ==> turns[j].says == NoFailure) {
        assert j > 0 ==> turns[j] == rest[j - 1];
      }
      assert turns[|chunks|] == rest[|chunks| - 1];
    } else {
      assert Source([Turn(false, last, EndOfFile, false, 0)]) == last + Source([]);
    }
  }

  // The destination has got the beginning of what the source gives.
  predicate Got(before: string, after: string, all: string) {
    before <= after && after[|before|..] <= all
  }

  lemma {:induction false} GotSoMuch(before: string, turns: seq<Turn>, i: nat)
    requires i <= |turns|
    ensures Got(before, before + Source(turns[..i]), Source(turns))
  {
    SourceIsPrefix(turns, i);
    assert (before + Source(turns[..i]))[|before|..] == Source(turns[..i]);
  }

  datatype Outcome = Copied(total: nat) | Cancelled | WriteFailed | ReadFailed | Goes

  // How turn t ends the download, of which `total` bytes have come with it.
  predicate EndsLike(t: Turn, total: nat, r: Outcome) {
    if t.cancelled then r == Cancelled
    else if t.data != "" && t.writeFails then r == WriteFailed
    else if t.says == EndOfFile then r == Copied(total)
    else r == ReadFailed && t.says == ReadFailure
  }

  // What has got to the destination when turn i ended the download like that.
  predicate Leaves(turns: seq<Turn>, i: nat, r: Outcome, before: string, after: string)
    requires i < |turns|
  {
    match r
    case Cancelled => after == before + Source(turns[..i])
    case WriteFailed => before + Source(turns[..i]) <= after <= before + Source(turns[..i + 1])
    case _ => after == before + Source(turns[..i + 1])
  }

  // Everything up to turn i went on.
  predicate GetsTo(turns: seq<Turn>, i: nat) {
    i <= |turns| && forall j :: 0 <= j < i ==> GoesWell(turns[j]) && turns[j].says == NoFailure
  }

  // The turn that ends the download, if it does.
  predicate IsLast(turns: seq<Turn>, last: nat, r: Outcome) {
    && GetsTo(turns, last) && (r == Goes <==> last == |turns|)
    && (last < |turns| ==>
          && !(GoesWell(turns[last]) && turns[last].says == NoFailure)
          && EndsLike(turns[last], |Source(turns[..last + 1])|, r))
  }

  // A download that has ended, or taken all the turns given.
  predicate Ended(turns: seq<Turn>, last: nat, r: Outcome, before: string, after: string) {
    && IsLast(turns, last, r)
    && (if last < |turns| then Leaves(turns, last, r, before, after) else after == before + Source(turns))
  }

  lemma SuccessIsTheEnd(turns: seq<Turn>, last: nat, r: Outcome)
    requires IsLast(turns, last, r)
    ensures r.Copied? <==> exists i :: EndsAt(turns, i)
    ensures forall i :: EndsAt(turns, i) ==> i == last && r == Copied(|Source(turns[..i + 1])|)
  {
    if r.Copied? { assert EndsAt(turns, last); }
  }

  // In any case the destination has got the beginning of what the source gives.
  lemma EndedGotSoMuch(turns: seq<Turn>, last: nat, r: Outcome, before: string, after: string)
    requires Ended(turns, last, r, before, after)
    ensures Got(before, after, Source(turns))
  {
    if last < |turns| {
      GotSoMuch(before, turns, last);
      GotSoMuch(before, turns, last + 1);
    } else {
      assert turns[..last] == turns;
      GotSoMuch(before, turns, last);
    }
  }

  class Writer {
    var received: string

    // The outcome `Goes` means that the turns given here are not all there is; otherwise the
    // first turn that does not go on, `last`, ends the download.  So success is exactly the end of
    // the file with nothing wrong before it, and then the destination has got the bytes of the
    // source, in order, and they are counted.
    method Copy(turns: seq<Turn>) returns (r: Outcome, ghost last: nat)
      modifies this
      ensures Ended(turns, last, r, old(received), received)
      ensures r.Copied? <==> exists i :: EndsAt(turns, i)
      ensures forall i :: EndsAt(turns, i) ==>
                received == old(received) + Source(turns[..i + 1]) && r == Copied(|Source(turns[..i + 1])|)
      ensures Got(old(received), received, Source(turns))
    {
      r, last := CopyLoop(turns);
      SuccessIsTheEnd(turns, last, r);
      EndedGotSoMuch(turns, last, r, old(received), received);
    }

    method CopyLoop(turns: seq<Turn>) returns (r: Outcome, ghost last: nat)
      modifies this
      ensures Ended(turns, last, r, old(received), received)
    {
      var total := 0;
      assert turns[..0] == [] && turns[..|turns|] == turns;
      for i := 0 to |turns|
        invariant received == old(received) + Source(turns[..i]) && total == |Source(turns[..i])|
        invariant GetsTo(turns, i)
      {
        var t := turns[i];
        SourceExtends(turns, i);
        if t.cancelled { return Cancelled, i; }
        if |t.data| > 0 {
          if t.writeFails {
            var n := if t.taken <= |t.data| then t.taken else |t.data|;
            received := received + t.data[..n];
            assert t.data == t.data[..n] + t.data[n..];
            return WriteFailed, i;
          }
          received := received + t.data;
        }
        total := total + |t.data|;
        if t.says == EndOfFile { return Copied(total), i; }
        if t.says != NoFailure { return ReadFailed, i; }
      }
      return Goes, |turns|;
    }

    // The archive is opened anew, and extracted only if the download came to its recorded size.
    method Fetch(turns: seq<Turn>, size: nat) returns (extract: bool)
      modifies this
      ensures extract <==> exists i :: EndsAt(turns, i) && |Source(turns[..i + 1])| == size
      ensures extract ==> exists i :: EndsAt(turns, i) && received == Source(turns[..i + 1]) && |received| == size
    {
      received := "";
      var r, _ := Copy(turns);
      extract := r.Copied? && r.total == size;
    }
  }
}
