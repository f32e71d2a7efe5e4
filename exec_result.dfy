// ExecResult: the exit code and output of a command run in a pod, its
// builder, and Java's equals and hashCode on it.

module ExecResults {
  import opened Common

  /** Java's int. */
  newtype int32 = x: int | -0x8000_0000 <= x < 0x8000_0000

  /** Two's-complement narrowing of an int to 32 bits, as Java's int
      arithmetic does on overflow. */
  function Wrap(x: int): (r: int32)
    ensures (r as int - x) % 0x1_0000_0000 == 0
    ensures -0x8000_0000 <= x < 0x8000_0000 ==> r as int == x
  {
    ((x + 0x8000_0000) % 0x1_0000_0000 - 0x8000_0000) as int32
  }

  /** String.hashCode(): h = 31 * h + c over the characters, wrapping. */
  function StringHash(s: string): int32
    decreases |s|
  {
    if s == [] then 0 else Wrap(31 * StringHash(s[..|s| - 1]) as int + s[|s| - 1] as int)
  }

  /** Objects.hashCode(o) of a possibly null string. */
  function NullableHash(s: Nullable<string>): (r: int32)
    ensures s.Null? ==> r == 0
  {
    if s.Null? then 0 else StringHash(s.value)
  }

  /** Multiplying both sides keeps a congruence modulo 2^32. */
  lemma ScaledCongruence(a: int, b: int, c: int)
    requires (a - b) % 0x1_0000_0000 == 0
    ensures (c * a - c * b) % 0x1_0000_0000 == 0
  {
    var k := (a - b) / 0x1_0000_0000;
    assert a - b == 0x1_0000_0000 * k;
    assert c * a - c * b == 0x1_0000_0000 * (c * k);
  }

  datatype ExecResult = ExecResult(exitCode: int32, output: Nullable<string>) {

    /** equals(o): false for null, otherwise field-wise, with
        Objects.equals on the output (two nulls are equal). */
    function Equals(o: Nullable<ExecResult>): (r: bool)
      ensures r <==> o.NonNull? && o.value == this
    {
      o.NonNull? && exitCode == o.value.exitCode && output == o.value.output
    }

    /** Objects.hash(exitCode, output): Arrays.hashCode over the two
        values, 31 * (31 * 1 + exitCode) + hash(output), wrapping. */
    function HashCode(): (r: int32)
      ensures (r as int - (961 + 31 * exitCode as int + NullableHash(output) as int)) % 0x1_0000_0000 == 0
    {
      var inner := Wrap(31 + exitCode as int);
      ScaledCongruence(inner as int, 31 + exitCode as int, 31);
      Wrap(31 * inner as int + NullableHash(output) as int)
    }
  }

  /** equals compares both fields, in both directions, and is reflexive
      and symmetric. */
  lemma EqualsFieldWise(a: ExecResult, b: ExecResult)
    ensures a.Equals(NonNull(b)) <==> a.exitCode == b.exitCode && a.output == b.output
    ensures a.Equals(NonNull(a))
    ensures a.Equals(NonNull(b)) == b.Equals(NonNull(a))
    ensures !a.Equals(Null)
  {
  }

  /** Equal results have equal hash codes. */
  lemma EqualsHashConsistent(a: ExecResult, b: ExecResult)
    requires a.Equals(NonNull(b))
    ensures a.HashCode() == b.HashCode()
  {
  }

  /** The hash of a result with no output and no exit code: 31 * 31. */
  lemma DefaultHash()
    ensures ExecResult(0, NonNull("")).HashCode() == 961
  {
  }

  /** A null output and an empty one are different results with the same
      hash code. */
  lemma NullAndEmptyCollide(code: int32)
    ensures !ExecResult(code, Null).Equals(NonNull(ExecResult(code, NonNull(""))))
    ensures ExecResult(code, Null).HashCode() == ExecResult(code, NonNull("")).HashCode()
  {
  }

  /** ExecResult.Builder: mutable fields with Java's defaults. */
  class Builder {
    var exitCode: int32
    var output: Nullable<string>

    constructor ()
      ensures exitCode == 0 && output == NonNull("")
    {
      exitCode := 0;
      output := NonNull("");
    }

    /** exitCode(c): the last value set wins; the output is kept. */
    method SetExitCode(exitCode: int32) returns (b: Builder)
      modifies this
      ensures b == this && this.exitCode == exitCode && output == old(output)
    {
      this.exitCode := exitCode;
      b := this;
    }

    /** output(s): the last value set wins; the exit code is kept. */
    method SetOutput(output: Nullable<string>) returns (b: Builder)
      modifies this
      ensures b == this && this.output == output && exitCode == old(exitCode)
    {
      this.output := output;
      b := this;
    }

    /** build(): a result holding the builder's current fields. */
    function Build(): (r: ExecResult)
      reads this
      ensures r.exitCode == exitCode && r.output == output
    {
      ExecResult(exitCode, output)
    }
  }

  /** newBuilder(): a fresh builder; building it at once gives exit code 0
      and empty output. */
  method NewBuilder() returns (b: Builder)
    ensures fresh(b) && b.Build() == ExecResult(0, NonNull(""))
  {
    b := new Builder();
  }

  /** newBuilder(src): a builder pre-set from `src`, so building it at
      once gives back a result equal to `src`. */
  method NewBuilderFrom(src: ExecResult) returns (b: Builder)
    ensures fresh(b) && b.Build() == src && b.Build().Equals(NonNull(src))
  {
    b := new Builder();
    b := b.SetExitCode(src.exitCode);
    b := b.SetOutput(src.output);
  }
}
