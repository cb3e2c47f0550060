/** The two word lists recorded for a descriptor bind, and why they lose nothing. */
module BindWords {
  import opened GuestTypes

  /** The arguments of a descriptor bind; the counts of both lists are 32-bit. */
  datatype Bind = Bind(
    command: Handle, bindPoint: u32, layout: Handle, firstSet: u32, sets: seq<Handle>, offsets: seq<u32>)

  predicate Countable(b: Bind) { |b.sets| < 0x1_0000_0000 && |b.offsets| < 0x1_0000_0000 }

  /** The structural words of a bind whose first n dynamic offsets have been pushed. */
  function StructuralUpTo(b: Bind, n: nat): seq<u64>
    requires Countable(b) && n <= |b.offsets|
  {
    [b.bindPoint, b.firstSet, |b.sets|, |b.offsets|] + seq(n, i requires 0 <= i < n => b.offsets[i])
  }

  function Structural(b: Bind): seq<u64>
    requires Countable(b)
  {
    StructuralUpTo(b, |b.offsets|)
  }

  function Handles(b: Bind): seq<u64> { [b.command, b.layout] + b.sets }

  /** FlimeGuestCmdBindDescriptorSets: pushes the header, then both lists. */
  method Build(b: Bind) returns (structural: seq<u64>, handles: seq<u64>)
    requires Countable(b)
    ensures structural == Structural(b) && handles == Handles(b)
    ensures DecodeBind(structural, handles) == Some(b)
  {
    structural := [b.bindPoint, b.firstSet, |b.sets|, |b.offsets|];
    handles := [b.command, b.layout];
    for i := 0 to |b.sets|
      invariant handles == [b.command, b.layout] + b.sets[..i]
    {
      handles := handles + [b.sets[i]];
    }
    for i := 0 to |b.offsets|
      invariant structural == StructuralUpTo(b, i)
    {
      structural := structural + [b.offsets[i]];
    }
    BindRoundTrip(b);
  }

  /** Reading a pair of word lists back; a pair no bind records decodes to nothing. */
  function DecodeBind(structural: seq<u64>, handles: seq<u64>): Option<Bind> {
    if |structural| < 4 || |handles| < 2 || structural[2] != |handles| - 2 || structural[3] != |structural| - 4 ||
       structural[2] >= 0x1_0000_0000 || structural[3] >= 0x1_0000_0000 ||
       exists i | 0 <= i < |structural| && i != 2 && i != 3 :: structural[i] >= 0x1_0000_0000
    then None
    else Some(Bind(handles[0], structural[0], handles[1], structural[1], handles[2..],
                   seq(|structural| - 4, i requires 0 <= i < |structural| - 4 => structural[i + 4])))
  }

  /** Every bind is read back from what it records, whatever its list lengths. */
  lemma BindRoundTrip(b: Bind)
    requires Countable(b)
    ensures DecodeBind(Structural(b), Handles(b)) == Some(b)
  {
    var s, h := Structural(b), Handles(b);
    assert h[2..] == b.sets;
    assert seq(|s| - 4, i requires 0 <= i < |s| - 4 => s[i + 4]) == b.offsets;
    assert forall i | 4 <= i < |s| :: s[i] == b.offsets[i - 4];
  }

  /** Two different binds never record the same pair. */
  lemma BindsDistinct(a: Bind, b: Bind)
    requires Countable(a) && Countable(b)
    ensures Structural(a) == Structural(b) && Handles(a) == Handles(b) <==> a == b
  {
    BindRoundTrip(a);
    BindRoundTrip(b);
  }

  /** What decodes was recorded by exactly the bind it decodes to. */
  lemma DecodedWasBuilt(structural: seq<u64>, handles: seq<u64>)
    ensures match DecodeBind(structural, handles)
            case None => forall b | Countable(b) :: Structural(b) != structural || Handles(b) != handles
            case Some(b) => Countable(b) && Structural(b) == structural && Handles(b) == handles
  {
    match DecodeBind(structural, handles)
    case None =>
      forall b | Countable(b) ensures Structural(b) != structural || Handles(b) != handles { BindRoundTrip(b); }
    case Some(b) =>
      assert Structural(b) == structural;
      assert Handles(b) == handles;
  }
}
