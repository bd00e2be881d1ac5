/** A source that fills every buffer it is given with one fixed byte. */
module ByteFillReaderModel {
  import opened Common

  datatype ByteFillReader = ByteFillReader(fill: byte) {

    /** Fills all of `p` with the reader's byte and reports the whole buffer read. */
    method Read(p: array<byte>) returns (n: nat, err: Error)
      modifies p
      ensures n == p.Length && err == Nil
      ensures forall i :: 0 <= i < p.Length ==> p[i] == fill
    {
      for i := 0 to p.Length
        invariant forall j :: 0 <= j < i ==> p[j] == fill
      {
        p[i] := fill;
      }
      n, err := p.Length, Nil;
    }
  }
}
