/**
 * The process-wide random source made explicit. Python's `random` module is
 * a stream of draws consumed one per call; here it is an unbounded tape and a
 * cursor. `random()` reads the real part of the draw under the cursor,
 * `choice` and `randint` read its integer part, and every call moves the
 * cursor on by one. No distribution is assumed: each result holds for every
 * tape.
 */
module Rand {

  /** A value of `random.random()`: a real in [0, 1). */
  type Unit = x: real | 0.0 <= x < 1.0 witness 0.0

  datatype Draw = Draw(u: Unit, k: nat)

  type Tape = nat -> Draw

  datatype Rng = Rng(tape: Tape, pos: nat)

  function Next(g: Rng): Rng {
    g.(pos := g.pos + 1)
  }

  /** The same tape moved on by `n` calls. */
  function Skip(g: Rng, n: nat): (r: Rng)
    ensures r.tape == g.tape && r.pos == g.pos + n
  {
    g.(pos := g.pos + n)
  }

  /** How far a step moved the random source: the same tape, at most `n` draws on. */
  ghost predicate DrewAtMost(g: Rng, g': Rng, n: nat) {
    g'.tape == g.tape && g.pos <= g'.pos <= g.pos + n
  }

  /** `random.random()`. */
  function Random(g: Rng): (r: (Unit, Rng))
    ensures r.1 == Skip(g, 1)
  {
    (g.tape(g.pos).u, Next(g))
  }

  /** `random.choice(xs)`; Python raises on an empty list, which no caller passes. */
  function Choice<T>(xs: seq<T>, g: Rng): (r: (T, Rng))
    requires |xs| > 0
    ensures r.0 in xs && r.1 == Skip(g, 1)
  {
    (xs[g.tape(g.pos).k % |xs|], Next(g))
  }

  /** `random.randint(a, b)`, both ends included; Python raises when a > b, which no caller allows. */
  function RandInt(a: int, b: int, g: Rng): (r: (int, Rng))
    requires a <= b
    ensures a <= r.0 <= b && r.1 == Skip(g, 1)
  {
    (a + g.tape(g.pos).k % (b - a + 1), Next(g))
  }
}
