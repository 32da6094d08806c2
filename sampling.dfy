/**
 * The sampling formulas that the ornament generator and the point-cloud
 * generator share: a point on a sphere of given radius, a height on the
 * cone, its normalised height, and a point on a horizontal circle of the cone.
 */
module Sampling {
  import opened Numerics

  /**
   * The direction drawn from u and v, with theta = 2 * PI * u and
   * phi = acos(2 * v - 1), scaled to length r.
   */
  function SpherePoint(r: real, u: real, v: real, m: Transcendentals): Vec3
  {
    var theta := 2.0 * PI * u;
    var phi := m.acos(2.0 * v - 1.0);
    Vec3(r * m.sin(phi) * m.cos(theta), r * m.sin(phi) * m.sin(theta), r * m.cos(phi))
  }

  /** The sphere point lies at distance exactly |r| from the origin. */
  lemma SpherePointNorm(r: real, u: real, v: real, m: Transcendentals)
    requires Pythagorean(m)
    ensures NormSq(SpherePoint(r, u, v, m)) == r * r
  {
    var theta := 2.0 * PI * u;
    var phi := m.acos(2.0 * v - 1.0);
    var sp, cp, st, ct := m.sin(phi), m.cos(phi), m.sin(theta), m.cos(theta);
    assert sp * sp + cp * cp == 1.0 && st * st + ct * ct == 1.0;
    SphericalIdentity(r, sp, cp, st, ct);
  }

  lemma SphericalIdentity(r: real, sp: real, cp: real, st: real, ct: real)
    requires sp * sp + cp * cp == 1.0 && st * st + ct * ct == 1.0
    ensures (r * sp * ct) * (r * sp * ct) + (r * sp * st) * (r * sp * st) + (r * cp) * (r * cp) == r * r
  {
    var a := r * r;
    calc {
      (r * sp * ct) * (r * sp * ct) + (r * sp * st) * (r * sp * st) + (r * cp) * (r * cp);
      (a * (sp * sp)) * (ct * ct) + (a * (sp * sp)) * (st * st) + a * (cp * cp);
      (a * (sp * sp)) * (st * st + ct * ct) + a * (cp * cp);
      a * (sp * sp) + a * (cp * cp);
      a * (sp * sp + cp * cp);
      a;
    }
  }

  /** The point at `angle` on the horizontal circle of radius `rad` at height `y`. */
  function CirclePoint(angle: real, rad: real, y: real, m: Transcendentals): Vec3
  {
    Vec3(m.cos(angle) * rad, y, m.sin(angle) * rad)
  }

  /** The circle point lies at horizontal distance exactly |rad| from the cone's axis. */
  lemma CirclePointRadius(angle: real, rad: real, y: real, m: Transcendentals)
    requires Pythagorean(m)
    ensures var p := CirclePoint(angle, rad, y, m); p.x * p.x + p.z * p.z == rad * rad
  {
    var c, s := m.cos(angle), m.sin(angle);
    assert s * s + c * c == 1.0;
    calc {
      (c * rad) * (c * rad) + (s * rad) * (s * rad);
      (rad * rad) * (s * s + c * c);
      rad * rad;
    }
  }

  /** A height on the cone, y = w * height - height / 2, for a draw w in [0, 1). */
  function ConeY(w: real, height: real): (y: real)
    requires 0.0 <= w < 1.0 && 0.0 < height
    ensures -height / 2.0 <= y < height / 2.0
  {
    MulNonneg(w, height);
    MulMonotone(w, 1.0, height);
    assert w * height < height by {
      MulNonneg(1.0 - w, height);
      assert height - w * height == (1.0 - w) * height;
      assert (1.0 - w) * height > 0.0;
    }
    w * height - height / 2.0
  }

  /** The normalised height: 1 at the base of the cone, 0 at its apex. */
  function HeightNorm(y: real, height: real): real
    requires 0.0 < height
  {
    1.0 - ((y + height / 2.0) / height)
  }

  /**
   * The normalised height of a drawn cone height is 1 - w: it lies in (0, 1],
   * never reaching the apex.
   */
  lemma HeightNormOfDraw(w: real, height: real)
    requires 0.0 <= w < 1.0 && 0.0 < height
    ensures HeightNorm(ConeY(w, height), height) == 1.0 - w
    ensures 0.0 < HeightNorm(ConeY(w, height), height) <= 1.0
  {
    var y := ConeY(w, height);
    assert y + height / 2.0 == w * height;
    assert (w * height) / height == w;
  }

  /** The normalised height of the cone point drawn from w: in (0, 1], never at the apex. */
  function DrawnHeightNorm(w: real, height: real): (h: real)
    requires 0.0 <= w < 1.0 && 0.0 < height
    ensures 0.0 < h <= 1.0
  {
    HeightNormOfDraw(w, height);
    HeightNorm(ConeY(w, height), height)
  }
}
