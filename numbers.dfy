/**
 * The numeric-kind policy applied by HalRepresentation before it stores a number.
 *
 * A java.lang.Number is modelled by its run-time class (its kind) and the
 * mathematical value it holds. IEEE rounding, NaN and the infinities are not
 * modelled; truncation and saturation of the (long) narrowing are.
 */
module Numbers {
  import opened Wrappers

  /** The run-time class of a java.lang.Number. */
  datatype NumKind =
    | Byte | Short | Integer | Long | Float | Double
    | BigInteger | BigDecimal
    | OtherNumber   // AtomicInteger, AtomicLong, DoubleAdder, DoubleAccumulator or any other subclass of Number

  /** A non-null java.lang.Number: its class and the value it denotes. */
  datatype Num = Num(kind: NumKind, value: real)

  /** `n instanceof Double || n instanceof Float` */
  predicate IsFloating(k: NumKind)
    ensures IsFloating(k) ==> !IsIntegral(k)
    ensures IsFloating(k) || IsIntegral(k) || k == BigDecimal || k == OtherNumber
  {
    k == Float || k == Double
  }

  /** The value has no fractional part. */
  predicate IsWhole(x: real)
  {
    x == x.Floor as real
  }

  /** Long.MIN_VALUE and Long.MAX_VALUE */
  const LongMin: int := -0x8000_0000_0000_0000
  const LongMax: int := 0x7FFF_FFFF_FFFF_FFFF

  /** The kinds whose values are always whole numbers. */
  predicate IsIntegral(k: NumKind)
  {
    k == Byte || k == Short || k == Integer || k == Long || k == BigInteger
  }

  /** The value range of a fixed-width integral kind, as [low, high]. */
  function Range(k: NumKind): (bounds: (int, int))
    requires k == Byte || k == Short || k == Integer || k == Long
    ensures bounds.0 < 0 < bounds.1
  {
    match k
    case Byte => (-0x80, 0x7F)
    case Short => (-0x8000, 0x7FFF)
    case Integer => (-0x8000_0000, 0x7FFF_FFFF)
    case Long => (LongMin, LongMax)
  }

  /**
   * A Number a Java program can hold: integral kinds are whole, and the
   * fixed-width ones lie within their range.
   */
  predicate ValidNum(n: Num)
  {
    && (IsIntegral(n.kind) ==> IsWhole(n.value))
    && (n.kind == Byte || n.kind == Short || n.kind == Integer || n.kind == Long ==>
          Range(n.kind).0 as real <= n.value <= Range(n.kind).1 as real)
  }

  /** Rounding toward zero: the integer part of x, with the sign of x. */
  function TruncateTowardZero(x: real): (t: int)
    ensures 0.0 <= x ==> 0 <= t && t as real <= x < t as real + 1.0
    ensures x <= 0.0 ==> t <= 0 && t as real - 1.0 < x <= t as real
  {
    if x >= 0.0 then x.Floor else -((-x).Floor)
  }

  /**
   * Java's narrowing of a floating value to long (what Double.longValue and
   * Float.longValue do): round toward zero, then saturate at the long range.
   */
  function LongValue(x: real): (r: int)
    ensures LongMin <= r <= LongMax
    ensures 0.0 <= x ==> 0 <= r && r as real <= x
    ensures x <= 0.0 ==> r <= 0 && x <= r as real
    ensures LongMin as real - 1.0 < x < LongMax as real + 1.0 ==> -1.0 < x - r as real < 1.0
    ensures LongMax as real <= x ==> r == LongMax
    ensures x <= LongMin as real ==> r == LongMin
  {
    var t := TruncateTowardZero(x);
    if t < LongMin then LongMin else if t > LongMax then LongMax else t
  }

  /**
   * normalizeInteger: a Double or Float becomes a Long holding its value
   * narrowed toward zero; null and every other kind are returned unchanged.
   */
  function NormalizeInteger(n: Option<Num>): (r: Option<Num>)
    ensures r.None? <==> n.None?
    ensures r.Some? ==> !IsFloating(r.value.kind)
    ensures n.Some? && !IsFloating(n.value.kind) ==> r == n
    ensures n.Some? && IsFloating(n.value.kind) ==>
      r.value.kind == Long && IsWhole(r.value.value) && r.value.value == LongValue(n.value.value) as real
  {
    match n
    case None => None
    case Some(x) =>
      if IsFloating(x.kind) then Some(Num(Long, LongValue(x.value) as real)) else n
  }

  /**
   * normalizeNumber: null, a Double and a Float are returned unchanged; any
   * other kind becomes a Float (Number.floatValue). The conversion keeps the
   * kind tag only: float rounding of the value is not modelled.
   */
  function NormalizeNumber(n: Option<Num>): (r: Option<Num>)
    ensures r.None? <==> n.None?
    ensures r.Some? ==> IsFloating(r.value.kind) && r.value.value == n.value.value
    ensures n.Some? && IsFloating(n.value.kind) ==> r == n
    ensures n.Some? && !IsFloating(n.value.kind) ==> r.value.kind == Float
  {
    match n
    case None => None
    case Some(x) =>
      if IsFloating(x.kind) then n else Some(Num(Float, x.value))
  }

  /** A floating value inside the long range is stored as its integer part, toward zero. */
  lemma NormalizeIntegerTruncates(k: NumKind, x: real)
    requires IsFloating(k)
    requires LongMin as real - 1.0 < x < LongMax as real + 1.0
    ensures NormalizeInteger(Some(Num(k, x))) == Some(Num(Long, TruncateTowardZero(x) as real))
  {
  }

  /** Normalizing a valid number as an integer gives a valid number. */
  lemma NormalizeIntegerValid(n: Num)
    requires ValidNum(n)
    ensures ValidNum(NormalizeInteger(Some(n)).value)
  {
  }

  /**
   * addInteger stores a whole value for every valid number except a BigDecimal
   * or another subclass of Number, which the source does not convert.
   */
  lemma NormalizeIntegerWhole(n: Num)
    requires ValidNum(n)
    requires n.kind != BigDecimal && n.kind != OtherNumber
    ensures IsWhole(NormalizeInteger(Some(n)).value.value)
  {
  }

  /** Normalizing as an integer twice is the same as normalizing once. */
  lemma NormalizeIntegerIdempotent(n: Option<Num>)
    ensures NormalizeInteger(NormalizeInteger(n)) == NormalizeInteger(n)
  {
  }

  /** Normalizing as a number twice is the same as normalizing once. */
  lemma NormalizeNumberIdempotent(n: Option<Num>)
    ensures NormalizeNumber(NormalizeNumber(n)) == NormalizeNumber(n)
  {
  }

  /** 3.9 is stored as 3 and -3.9 as -3 (toward zero, not toward minus infinity). */
  lemma NormalizeIntegerExamples()
    ensures NormalizeInteger(Some(Num(Double, 3.9))) == Some(Num(Long, 3.0))
    ensures NormalizeInteger(Some(Num(Float, -3.9))) == Some(Num(Long, -3.0))
    ensures NormalizeInteger(Some(Num(Integer, 42.0))) == Some(Num(Integer, 42.0))
  {
  }

  /**
   * Only Double and Float are truncated: a BigDecimal with a fractional part
   * is stored as it is, fraction included.
   */
  lemma NormalizeIntegerKeepsBigDecimal()
    ensures NormalizeInteger(Some(Num(BigDecimal, 3.9))) == Some(Num(BigDecimal, 3.9))
  {
  }

  /** A whole-number input to addNumber is stored with the Float kind. */
  lemma NormalizeNumberExamples()
    ensures NormalizeNumber(Some(Num(Integer, 3.0))) == Some(Num(Float, 3.0))
    ensures NormalizeNumber(Some(Num(Double, 3.5))) == Some(Num(Double, 3.5))
    ensures NormalizeNumber(None) == None
  {
  }
}
