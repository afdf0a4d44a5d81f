/**
 * Falling power-ups: their fall, pickup by the paddle, loss below the
 * field, and the outcome of one sweep over the falling list.
 */
module PowerUps {
  import opened Geometry
  import opened Entities

  /** `spawnPowerUp`: a power-up of the given kind falling from (x, y). */
  function NewPowerUp(x: real, y: real, kind: PowerUpKind): (p: PowerUp)
    ensures p.x == x && p.y == y && p.kind == kind && p.vy > 0.0
    ensures p.width == POWERUP_WIDTH && p.height == POWERUP_HEIGHT
  {
    PowerUp(x, y, POWERUP_FALL_SPEED, kind, POWERUP_WIDTH, POWERUP_HEIGHT)
  }

  function Fallen(p: PowerUp, dt: real): PowerUp
  {
    p.(y := p.y + p.vy * dt)
  }

  /** The power-up's box overlaps the paddle's. */
  predicate Caught(p: PowerUp, paddleX: real, paddleWidth: real)
  {
    Overlap(PowerUpBox(p), PaddleBox(paddleX, paddleWidth))
  }

  /** The power-up has fallen more than its own height below the field. */
  predicate Missed(p: PowerUp)
  {
    p.y > CANVAS_HEIGHT + p.height
  }

  /** The paddle width after picking up a power-up of the given kind. */
  function WidthAfter(kind: PowerUpKind, width: real): real
  {
    if kind == Expand then EXPANDED_WIDTH else width
  }

  /**
   * What a sweep leaves falling, the kinds it picked up in order, the final
   * paddle width, and how many power-ups it dropped below the field.
   */
  datatype SweepResult = SweepResult(kept: seq<PowerUp>, picked: seq<PowerUpKind>, width: real, missed: nat)

  /**
   * One pass over the falling list from its last element to its first: each
   * power-up falls, then is picked up if it overlaps the paddle (whose width
   * an earlier Expand pickup in the same pass may have changed), else dropped
   * if missed, else kept in place. The first element is handled last.
   */
  function Sweep(s: seq<PowerUp>, dt: real, paddleX: real, width: real): SweepResult
  {
    if s == [] then SweepResult([], [], width, 0)
    else SweepStep(Sweep(s[1..], dt, paddleX, width), s[0], dt, paddleX)
  }

  /** The handling of one power-up `q` after the sweep of everything behind it gave `rest`. */
  function SweepStep(rest: SweepResult, q: PowerUp, dt: real, paddleX: real): SweepResult
  {
    var p := Fallen(q, dt);
    if Caught(p, paddleX, rest.width) then rest.(picked := rest.picked + [p.kind], width := WidthAfter(p.kind, rest.width))
    else if Missed(p) then rest.(missed := rest.missed + 1)
    else rest.(kept := [p] + rest.kept)
  }

  function CountKind(ks: seq<PowerUpKind>, kind: PowerUpKind): nat
  {
    if ks == [] then 0 else CountKind(ks[..|ks| - 1], kind) + (if ks[|ks| - 1] == kind then 1 else 0)
  }

  /** Every power-up after its fall, in list order. */
  function FallenAll(s: seq<PowerUp>, dt: real): (r: seq<PowerUp>)
    ensures |r| == |s|
  {
    if s == [] then [] else [Fallen(s[0], dt)] + FallenAll(s[1..], dt)
  }

  /** `a` is `b` with some elements removed, the rest in their original order. */
  predicate IsSubseq<T(==)>(a: seq<T>, b: seq<T>)
    decreases |b|
  {
    if a == [] then true
    else if b == [] then false
    else (a[0] == b[0] && IsSubseq(a[1..], b[1..])) || IsSubseq(a, b[1..])
  }

  /** An ordered subsequence only holds elements of the sequence it is taken from. */
  lemma {:induction false} SubseqMembers<T>(a: seq<T>, b: seq<T>)
    requires IsSubseq(a, b)
    ensures |a| <= |b|
    ensures forall x :: x in a ==> x in b
    decreases |b|
  {
    if a != [] {
      if a[0] == b[0] && IsSubseq(a[1..], b[1..]) {
        SubseqMembers(a[1..], b[1..]);
        assert a == [a[0]] + a[1..];
        assert b == [b[0]] + b[1..];
      } else {
        SubseqMembers(a, b[1..]);
        assert b == [b[0]] + b[1..];
      }
    }
  }

  /** A wider paddle catches everything a narrower one does. */
  lemma CaughtWider(p: PowerUp, paddleX: real, w1: real, w2: real)
    requires w1 <= w2 && Caught(p, paddleX, w1)
    ensures Caught(p, paddleX, w2)
  {
  }

  /**
   * The outcome counts of a sweep add up to the length of the list (each
   * power-up is kept, picked up or missed: see SweepKept, SweepPicked,
   * SweepStays, SweepCaught and SweepMissed for which one), and the paddle
   * ends expanded exactly when an Expand was picked up or it already was.
   */
  lemma {:induction false} SweepShape(s: seq<PowerUp>, dt: real, paddleX: real, width: real)
    ensures var r := Sweep(s, dt, paddleX, width);
            && |r.kept| + |r.picked| + r.missed == |s|
            && r.width == (if Expand in r.picked then EXPANDED_WIDTH else width)
  {
    if s != [] {
      SweepShape(s[1..], dt, paddleX, width);
    }
  }

  /**
   * What a sweep keeps: the fallen power-ups, in their original order, that
   * are neither below the field nor touching the paddle (not even at the
   * narrower of the widths it had during the sweep).
   */
  lemma {:induction false} SweepKept(s: seq<PowerUp>, dt: real, paddleX: real, width: real)
    ensures var r := Sweep(s, dt, paddleX, width);
            && IsSubseq(r.kept, FallenAll(s, dt))
            && forall i :: 0 <= i < |r.kept| ==>
                 !Missed(r.kept[i]) && !Caught(r.kept[i], paddleX, Min(width, EXPANDED_WIDTH))
  {
    if s != [] {
      var rest := Sweep(s[1..], dt, paddleX, width);
      var r := Sweep(s, dt, paddleX, width);
      var p := Fallen(s[0], dt);
      SweepKept(s[1..], dt, paddleX, width);
      SweepShape(s[1..], dt, paddleX, width);
      var all := FallenAll(s, dt);
      assert all[0] == p && all[1..] == FallenAll(s[1..], dt);
      if r.kept != rest.kept {
        assert r.kept == [p] + rest.kept;
        assert r.kept[1..] == rest.kept;
        if Caught(p, paddleX, Min(width, EXPANDED_WIDTH)) {
          CaughtWider(p, paddleX, Min(width, EXPANDED_WIDTH), rest.width);
        }
      }
    }
  }

  /**
   * Every kind a sweep picks up belongs to a power-up of the list that, once
   * fallen, touched the paddle at its initial or its expanded width.
   */
  lemma {:induction false} SweepPicked(s: seq<PowerUp>, dt: real, paddleX: real, width: real)
    ensures var r := Sweep(s, dt, paddleX, width);
            forall k :: 0 <= k < |r.picked| ==>
              exists j :: 0 <= j < |s| && s[j].kind == r.picked[k] &&
                (Caught(Fallen(s[j], dt), paddleX, width) || Caught(Fallen(s[j], dt), paddleX, EXPANDED_WIDTH))
  {
    if s != [] {
      var rest := Sweep(s[1..], dt, paddleX, width);
      var r := Sweep(s, dt, paddleX, width);
      SweepPicked(s[1..], dt, paddleX, width);
      SweepShape(s[1..], dt, paddleX, width);
      forall k | 0 <= k < |r.picked|
        ensures exists j :: 0 <= j < |s| && s[j].kind == r.picked[k] &&
                  (Caught(Fallen(s[j], dt), paddleX, width) || Caught(Fallen(s[j], dt), paddleX, EXPANDED_WIDTH))
      {
        if k < |rest.picked| {
          assert r.picked[k] == rest.picked[k];
          var j :| 0 <= j < |s[1..]| && s[1..][j].kind == rest.picked[k] &&
                   (Caught(Fallen(s[1..][j], dt), paddleX, width) || Caught(Fallen(s[1..][j], dt), paddleX, EXPANDED_WIDTH));
          assert s[1..][j] == s[j + 1];
        } else {
          assert r.picked[k] == s[0].kind;
        }
      }
    }
  }

  /** How many power-ups of the list, once fallen, are below the field without touching a paddle of width w. */
  function MissedCount(s: seq<PowerUp>, dt: real, paddleX: real, w: real): nat
  {
    if s == [] then 0
    else MissedCount(s[1..], dt, paddleX, w) + (if Missed(Fallen(s[0], dt)) && !Caught(Fallen(s[0], dt), paddleX, w) then 1 else 0)
  }

  /**
   * A power-up that, once fallen, is above the bottom limit and clear of the
   * paddle even at the wider of the sweep's widths stays falling.
   */
  lemma {:induction false} SweepStays(s: seq<PowerUp>, dt: real, paddleX: real, width: real)
    ensures forall i :: 0 <= i < |s| && !Missed(Fallen(s[i], dt)) &&
                        !Caught(Fallen(s[i], dt), paddleX, Max(width, EXPANDED_WIDTH)) ==>
              Fallen(s[i], dt) in Sweep(s, dt, paddleX, width).kept
  {
    if s != [] {
      var rest := Sweep(s[1..], dt, paddleX, width);
      var r := Sweep(s, dt, paddleX, width);
      var p := Fallen(s[0], dt);
      SweepStays(s[1..], dt, paddleX, width);
      SweepShape(s[1..], dt, paddleX, width);
      forall i | 0 <= i < |s| && !Missed(Fallen(s[i], dt)) && !Caught(Fallen(s[i], dt), paddleX, Max(width, EXPANDED_WIDTH))
        ensures Fallen(s[i], dt) in r.kept
      {
        if i == 0 {
          if Caught(p, paddleX, rest.width) {
            CaughtWider(p, paddleX, rest.width, Max(width, EXPANDED_WIDTH));
          }
        } else {
          assert s[1..][i - 1] == s[i];
          assert Fallen(s[i], dt) in rest.kept;
        }
      }
    }
  }

  /**
   * A power-up that, once fallen, touches the paddle even at the narrower of
   * the sweep's widths is picked up.
   */
  lemma {:induction false} SweepCaught(s: seq<PowerUp>, dt: real, paddleX: real, width: real)
    ensures forall i :: 0 <= i < |s| && Caught(Fallen(s[i], dt), paddleX, Min(width, EXPANDED_WIDTH)) ==>
              s[i].kind in Sweep(s, dt, paddleX, width).picked
  {
    if s != [] {
      var rest := Sweep(s[1..], dt, paddleX, width);
      var r := Sweep(s, dt, paddleX, width);
      var p := Fallen(s[0], dt);
      SweepCaught(s[1..], dt, paddleX, width);
      SweepShape(s[1..], dt, paddleX, width);
      forall i | 0 <= i < |s| && Caught(Fallen(s[i], dt), paddleX, Min(width, EXPANDED_WIDTH))
        ensures s[i].kind in r.picked
      {
        if i == 0 {
          CaughtWider(p, paddleX, Min(width, EXPANDED_WIDTH), rest.width);
          assert r.picked == rest.picked + [p.kind];
        } else {
          assert s[1..][i - 1] == s[i];
          assert s[i].kind in rest.picked;
        }
      }
    }
  }

  /**
   * The missed count lies between the number of fallen power-ups below the
   * field and clear of the paddle at the wider of the sweep's widths, and
   * that number at the narrower width.
   */
  lemma {:induction false} SweepMissed(s: seq<PowerUp>, dt: real, paddleX: real, width: real)
    ensures MissedCount(s, dt, paddleX, Max(width, EXPANDED_WIDTH)) <= Sweep(s, dt, paddleX, width).missed
    ensures Sweep(s, dt, paddleX, width).missed <= MissedCount(s, dt, paddleX, Min(width, EXPANDED_WIDTH))
  {
    if s != [] {
      var rest := Sweep(s[1..], dt, paddleX, width);
      var p := Fallen(s[0], dt);
      SweepMissed(s[1..], dt, paddleX, width);
      SweepShape(s[1..], dt, paddleX, width);
      if Caught(p, paddleX, rest.width) {
        CaughtWider(p, paddleX, rest.width, Max(width, EXPANDED_WIDTH));
      }
      if Caught(p, paddleX, Min(width, EXPANDED_WIDTH)) {
        CaughtWider(p, paddleX, Min(width, EXPANDED_WIDTH), rest.width);
      }
    }
  }
}
