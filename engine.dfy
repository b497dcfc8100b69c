/**
  The per-point Mandelbrot evaluator of engine.py: the bounded escape-count
  loop and the count-to-colour rule.

  Complex numbers are exact pairs of reals; the test |z| <= 2 is taken on the
  squared modulus, re*re + im*im <= 4, which is the same condition without a
  square root.
 */
module Engine {

  /** A point of the complex plane. */
  datatype Complex = Complex(re: real, im: real)

  const Zero: Complex := Complex(0.0, 0.0)

  /** One step of the recurrence z := z*z + c. */
  function Step(z: Complex, c: Complex): Complex
  {
    Complex(z.re * z.re - z.im * z.im + c.re, 2.0 * z.re * z.im + c.im)
  }

  /** |z| <= 2, the condition under which the loop keeps iterating. */
  predicate InDisk(z: Complex)
  {
    z.re * z.re + z.im * z.im <= 4.0
  }

  /** The orbit of 0: the value of z after k steps of the recurrence. */
  function Orbit(c: Complex, k: nat): Complex
  {
    if k == 0 then Zero else Step(Orbit(c, k - 1), c)
  }

  /** The escape count when the first k iterates are already known to be in the disk. */
  function EscapeFrom(c: Complex, max: int, k: nat): (n: nat)
    decreases max - k
    ensures k <= n
    ensures max <= k ==> n == k
    ensures k <= max ==> n <= max
    ensures forall j :: k <= j < n ==> InDisk(Orbit(c, j))
    ensures n < max ==> !InDisk(Orbit(c, n))
  {
    if max <= k || !InDisk(Orbit(c, k)) then k else EscapeFrom(c, max, k + 1)
  }

  /**
    The escape count: the first k whose iterate leaves the disk, or the cap
    max when none of the iterates 0 .. max-1 does (0 when the cap is not positive).
   */
  function EscapeTime(c: Complex, max: int): (n: nat)
    ensures max >= 0 ==> n <= max
    ensures max <= 0 ==> n == 0
    ensures forall j :: 0 <= j < n ==> InDisk(Orbit(c, j))
    ensures n < max ==> !InDisk(Orbit(c, n))
  {
    EscapeFrom(c, max, 0)
  }

  /** The escape-count loop of engine.py: iterate while |z| <= 2 and below the cap. */
  method CountIterations(c: Complex, max: int) returns (n: nat)
    ensures n == EscapeTime(c, max)
    ensures max >= 0 ==> n <= max
    ensures max >= 1 ==> n >= 1
    ensures forall j :: 0 <= j < n ==> InDisk(Orbit(c, j))
    ensures n < max ==> !InDisk(Orbit(c, n))
  {
    var z := Zero;
    n := 0;
    while InDisk(z) && n < max
      invariant z == Orbit(c, n)
      invariant EscapeFrom(c, max, n) == EscapeTime(c, max)
      decreases max - n
    {
      z := Step(z, c);
      n := n + 1;
    }
  }

  /** Any count meeting the stopping conditions of the loop is the escape count. */
  lemma EscapeTimeUnique(c: Complex, max: int, n: nat)
    requires 0 <= n <= max
    requires forall j :: 0 <= j < n ==> InDisk(Orbit(c, j))
    requires n < max ==> !InDisk(Orbit(c, n))
    ensures n == EscapeTime(c, max)
  {
  }

  /** Raising the cap never changes a count that escaped below the old cap. */
  lemma RaisingTheCap(c: Complex, low: int, high: int)
    requires 0 <= low <= high
    ensures EscapeTime(c, low) == if EscapeTime(c, high) < low then EscapeTime(c, high) else low
  {
    var n := EscapeTime(c, high);
    if n < low {
      EscapeTimeUnique(c, low, n);
    } else {
      assert forall j :: 0 <= j < low ==> InDisk(Orbit(c, j));
      EscapeTimeUnique(c, low, low);
    }
  }

  /** The orbit of c = 0 never leaves 0. */
  lemma {:induction false} OriginOrbit(k: nat)
    ensures Orbit(Zero, k) == Zero
  {
    if k > 0 {
      OriginOrbit(k - 1);
    }
  }

  /** The origin never escapes: its count is the cap and it is coloured black. */
  lemma OriginNeverEscapes(max: int)
    ensures max >= 0 ==> EscapeTime(Zero, max) == max
    ensures Colour(EscapeTime(Zero, max), max) == Black
  {
    var n := EscapeTime(Zero, max);
    if n < max {
      OriginOrbit(n);
    }
  }

  /** c = 3 leaves the disk after the first step: count 1, and colour (32, 64, 16) below a cap of 2. */
  lemma ThreeEscapesAtOnce(max: int)
    requires max >= 1
    ensures EscapeTime(Complex(3.0, 0.0), max) == 1
    ensures max > 1 ==> Colour(EscapeTime(Complex(3.0, 0.0), max), max) == Rgb(32, 64, 16)
  {
    var c := Complex(3.0, 0.0);
    assert Orbit(c, 0) == Zero;
    assert Orbit(c, 1) == c;
    if max > 1 {
      EscapeTimeUnique(c, max, 1);
    } else {
      EscapeTimeUnique(c, max, max);
    }
  }

  /** A colour channel value. */
  type Channel = v: int | 0 <= v < 256

  /** An (R, G, B) colour. */
  datatype Rgb = Rgb(red: Channel, green: Channel, blue: Channel)

  const Black: Rgb := Rgb(0, 0, 0)

  /**
    The colour of an escape count: black at the cap, otherwise a banded
    palette with red (n mod 8) * 32, green (n mod 4) * 64, blue (n mod 16) * 16.
   */
  function Colour(n: int, max: int): (rgb: Rgb)
    ensures rgb == Black <==> n == max || n % 16 == 0
    ensures rgb.red <= 224 && rgb.red % 32 == 0
    ensures rgb.green <= 192 && rgb.green % 64 == 0
    ensures rgb.blue <= 240 && rgb.blue % 16 == 0
  {
    if n == max then Black
    else Rgb((n % 8) * 32, (n % 4) * 64, (n % 16) * 16)
  }

  /** Below the cap, two counts get the same colour exactly when they lie in the same band mod 16. */
  lemma ColourBands(n: int, m: int, max: int)
    requires n != max && m != max
    ensures Colour(n, max) == Colour(m, max) <==> n % 16 == m % 16
  {
    BandDeterminesLowBits(n);
    BandDeterminesLowBits(m);
  }

  /** n mod 8 and n mod 4 are determined by n mod 16. */
  lemma BandDeterminesLowBits(n: int)
    ensures n % 8 == (n % 16) % 8 && n % 4 == (n % 16) % 4
  {
    var q, r := n / 16, n % 16;
    assert n == 16 * q + r;
    var r8 := r % 8;
    assert r == 8 * (r / 8) + r8;
    assert n == 8 * (2 * q + r / 8) + r8;
    var r4 := r % 4;
    assert r == 4 * (r / 4) + r4;
    assert n == 4 * (4 * q + r / 4) + r4;
  }

  /** A point coloured black without reaching the cap: count 16 with a cap of 25. */
  lemma BlackBandBelowCap()
    ensures Colour(16, 25) == Black
  {
  }

  /** The whole of engine.py's calculate: count the iterations, then colour the count. */
  method Calculate(c: Complex, max: int) returns (rgb: Rgb)
    ensures rgb == Colour(EscapeTime(c, max), max)
    ensures rgb != Black ==> EscapeTime(c, max) < max && !InDisk(Orbit(c, EscapeTime(c, max)))
    ensures max >= 0 && EscapeTime(c, max) == max ==> rgb == Black
  {
    var iterations := CountIterations(c, max);
    rgb := Colour(iterations, max);
  }
}
