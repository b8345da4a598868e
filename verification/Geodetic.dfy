/**
 * Geodetic, earth-centred (ECEF) and local east-north-up (ENU) coordinates on the WGS 84
 * ellipsoid, over real numbers. Sines, cosines and the square root are parameters, known only
 * by the identities they satisfy.
 */
module Geodetic {
  import opened Reals

  /** The equatorial radius, the flattening and the square of the first eccentricity. */
  const A: real := 6378137.0
  const F: real := 1.0 / 298.257223563
  const E2: real := F * (2.0 - F)

  datatype Ecef = Ecef(x: real, y: real, z: real)
  datatype Enu = Enu(e: real, n: real, u: real)

  /** The sines and cosines of a latitude phi and a longitude lambda. */
  datatype Angles = Angles(sinPhi: real, cosPhi: real, sinLambda: real, cosLambda: real)
  {
    predicate Valid()
    {
      sinPhi * sinPhi + cosPhi * cosPhi == 1.0 && sinLambda * sinLambda + cosLambda * cosLambda == 1.0
    }
  }

  /** N(phi), from the value of the square root in its denominator. */
  function NormalRadius(root: real): real
    requires root > 0.0
  {
    A / root
  }

  function GeodeticToEcef(g: Angles, normal: real, h: real): Ecef
  {
    Ecef((normal + h) * g.cosPhi * g.cosLambda,
         (normal + h) * g.cosPhi * g.sinLambda,
         ((1.0 - E2) * normal + h) * g.sinPhi)
  }

  function EcefToEnu(g: Angles, origin: Ecef, p: Ecef): Enu
  {
    var dx, dy, dz := p.x - origin.x, p.y - origin.y, p.z - origin.z;
    Enu(-g.sinLambda * dx + g.cosLambda * dy,
        -g.sinPhi * g.cosLambda * dx + -g.sinPhi * g.sinLambda * dy + g.cosPhi * dz,
        g.cosPhi * g.cosLambda * dx + g.cosPhi * g.sinLambda * dy + g.sinPhi * dz)
  }

  function EnuToEcef(g: Angles, origin: Ecef, v: Enu): Ecef
  {
    Ecef(-g.sinLambda * v.e + -g.sinPhi * g.cosLambda * v.n + g.cosPhi * g.cosLambda * v.u + origin.x,
         g.cosLambda * v.e + -g.sinPhi * g.sinLambda * v.n + g.cosPhi * g.sinLambda * v.u + origin.y,
         g.cosPhi * v.n + g.sinPhi * v.u + origin.z)
  }

  function GeodeticToEnu(g0: Angles, normal0: real, h0: real, g: Angles, normal: real, h: real): Enu
  {
    EcefToEnu(g0, GeodeticToEcef(g0, normal0, h0), GeodeticToEcef(g, normal, h))
  }

  function Square(x: real): real { x * x }

  function Distance2(p: Ecef, q: Ecef): real { Square(p.x - q.x) + Square(p.y - q.y) + Square(p.z - q.z) }

  function Length2(v: Enu): real { Square(v.e) + Square(v.n) + Square(v.u) }

  /** The quadratic form of the ellipsoid, with m = 1 - e^2. */
  function Form(x: real, y: real, z: real, m: real): real { (x * x + y * y) * m + z * z }

  /** The ellipsoid x^2 + y^2 + z^2 / (1 - e^2) = a^2. */
  ghost predicate OnEllipsoid(p: Ecef) { Form(p.x, p.y, p.z, 1.0 - E2) == A * A * (1.0 - E2) }

  /** What N(phi) satisfies. */
  ghost predicate IsNormalRadius(g: Angles, normal: real)
  {
    normal > 0.0 && normal * normal * (1.0 - E2 * (g.sinPhi * g.sinPhi)) == A * A
  }

  lemma NormalRadiusIs(g: Angles, root: real)
    requires root > 0.0 && root * root == 1.0 - E2 * (g.sinPhi * g.sinPhi)
    ensures IsNormalRadius(g, NormalRadius(root))
  {
    var n := NormalRadius(root);
    assert n * root == A;
    calc {
      n * n * (root * root);
      (n * root) * (n * root);
      A * A;
    }
    assert n > 0.0;
  }

  // ----- ECEF to ENU is two plane rotations

  /** A rotation by an angle with sine `s` and cosine `c` takes (a, b) to (p, q). */
  ghost predicate Turned(s: real, c: real, a: real, b: real, p: real, q: real) { p == -s * a + c * b && q == c * a + s * b }

  lemma TurnBack(s: real, c: real, a: real, b: real, p: real, q: real)
    requires s * s + c * c == 1.0
    ensures Turned(s, c, a, b, p, q) <==> (a == -s * p + c * q && b == c * p + s * q)
  {
    if Turned(s, c, a, b, p, q) {
      calc { -s * p + c * q; (s * s + c * c) * a; a; }
      calc { c * p + s * q; (s * s + c * c) * b; b; }
    }
    if a == -s * p + c * q && b == c * p + s * q {
      calc { -s * a + c * b; (s * s + c * c) * p; p; }
      calc { c * a + s * b; (s * s + c * c) * q; q; }
    }
  }

  lemma TurnKeepsLength(s: real, c: real, a: real, b: real, p: real, q: real)
    requires s * s + c * c == 1.0 && Turned(s, c, a, b, p, q)
    ensures p * p + q * q == a * a + b * b
  {
    calc {
      p * p + q * q;
      (s * s + c * c) * (a * a) + (s * s + c * c) * (b * b);
      a * a + b * b;
    }
  }

  /** `w` is the horizontal distance outwards along the reference meridian. */
  ghost predicate Turns(g: Angles, origin: Ecef, p: Ecef, v: Enu, w: real)
  {
    && Turned(g.sinLambda, g.cosLambda, p.x - origin.x, p.y - origin.y, v.e, w)
    && Turned(g.sinPhi, g.cosPhi, w, p.z - origin.z, v.n, v.u)
  }

  lemma EcefToEnuTurns(g: Angles, origin: Ecef, p: Ecef) returns (w: real)
    ensures Turns(g, origin, p, EcefToEnu(g, origin, p), w)
  {
    var dx, dy, dz := p.x - origin.x, p.y - origin.y, p.z - origin.z;
    w := g.cosLambda * dx + g.sinLambda * dy;
    Factor(-g.sinPhi, g.cosLambda, dx, g.sinLambda, dy);
    Factor(g.cosPhi, g.cosLambda, dx, g.sinLambda, dy);
  }

  lemma EnuToEcefTurns(g: Angles, origin: Ecef, v: Enu) returns (w: real)
    requires g.Valid()
    ensures Turns(g, origin, EnuToEcef(g, origin, v), v, w)
  {
    w := -g.sinPhi * v.n + g.cosPhi * v.u;
    Outwards(g.sinPhi, g.cosPhi, v.n, v.u, w, g.cosLambda);
    Outwards(g.sinPhi, g.cosPhi, v.n, v.u, w, g.sinLambda);
    EnuTilt(g, v.n, v.u, w, EnuToEcef(g, origin, v).z - origin.z);
    EnuSpin(g, origin, v, w, EnuToEcef(g, origin, v));
  }

  lemma EnuTilt(g: Angles, n: real, u: real, w: real, dz: real)
    requires g.Valid() && w == -g.sinPhi * n + g.cosPhi * u && dz == g.cosPhi * n + g.sinPhi * u
    ensures Turned(g.sinPhi, g.cosPhi, w, dz, n, u)
  {
    TurnBack(g.sinPhi, g.cosPhi, w, dz, n, u);
  }

  lemma EnuSpin(g: Angles, origin: Ecef, v: Enu, w: real, p: Ecef)
    requires g.Valid() && p == EnuToEcef(g, origin, v)
    requires -g.sinPhi * g.cosLambda * v.n + g.cosPhi * g.cosLambda * v.u == g.cosLambda * w
    requires -g.sinPhi * g.sinLambda * v.n + g.cosPhi * g.sinLambda * v.u == g.sinLambda * w
    ensures Turned(g.sinLambda, g.cosLambda, p.x - origin.x, p.y - origin.y, v.e, w)
  {
    TurnBack(g.sinLambda, g.cosLambda, p.x - origin.x, p.y - origin.y, v.e, w);
  }

  lemma Factor(k: real, a: real, x: real, b: real, y: real)
    ensures k * a * x + k * b * y == k * (a * x + b * y)
  {
  }

  lemma TurnsForward(g: Angles, origin: Ecef, p: Ecef, v: Enu, w: real)
    requires Turns(g, origin, p, v, w)
    ensures v == EcefToEnu(g, origin, p)
  {
    var dx, dy := p.x - origin.x, p.y - origin.y;
    Factor(-g.sinPhi, g.cosLambda, dx, g.sinLambda, dy);
    Factor(g.cosPhi, g.cosLambda, dx, g.sinLambda, dy);
  }

  lemma TurnsBackward(g: Angles, origin: Ecef, p: Ecef, v: Enu, w: real)
    requires g.Valid() && Turns(g, origin, p, v, w)
    ensures p == EnuToEcef(g, origin, v)
  {
    TurnBack(g.sinPhi, g.cosPhi, w, p.z - origin.z, v.n, v.u);
    TurnBack(g.sinLambda, g.cosLambda, p.x - origin.x, p.y - origin.y, v.e, w);
    Outwards(g.sinPhi, g.cosPhi, v.n, v.u, w, g.cosLambda);
    Outwards(g.sinPhi, g.cosPhi, v.n, v.u, w, g.sinLambda);
    TurnedBack(g, origin, p, v, w);
  }

  lemma TurnedBack(g: Angles, origin: Ecef, p: Ecef, v: Enu, w: real)
    requires p.x - origin.x == -g.sinLambda * v.e + g.cosLambda * w
    requires p.y - origin.y == g.cosLambda * v.e + g.sinLambda * w
    requires p.z - origin.z == g.cosPhi * v.n + g.sinPhi * v.u
    requires -g.sinPhi * g.cosLambda * v.n + g.cosPhi * g.cosLambda * v.u == g.cosLambda * w
    requires -g.sinPhi * g.sinLambda * v.n + g.cosPhi * g.sinLambda * v.u == g.sinLambda * w
    ensures p == EnuToEcef(g, origin, v)
  {
  }

  lemma Outwards(s: real, c: real, n: real, u: real, w: real, k: real)
    requires w == -s * n + c * u
    ensures -s * k * n + c * k * u == k * w
  {
  }

  /** The two conversions are mutual inverses: each undoes the other on every point. */
  lemma ConversionsAreInverse(g: Angles, origin: Ecef, p: Ecef, v: Enu)
    requires g.Valid()
    ensures v == EcefToEnu(g, origin, p) <==> p == EnuToEcef(g, origin, v)
  {
    if v == EcefToEnu(g, origin, p) {
      var w := EcefToEnuTurns(g, origin, p);
      TurnsBackward(g, origin, p, v, w);
    }
    if p == EnuToEcef(g, origin, v) {
      var w := EnuToEcefTurns(g, origin, v);
      TurnsForward(g, origin, p, v, w);
    }
  }

  lemma LengthKept(g: Angles, origin: Ecef, p: Ecef)
    requires g.Valid()
    ensures Length2(EcefToEnu(g, origin, p)) == Distance2(p, origin)
  {
    var v := EcefToEnu(g, origin, p);
    var w := EcefToEnuTurns(g, origin, p);
    TurnsKeepLength(g, v.e, v.n, v.u, w, p.x - origin.x, p.y - origin.y, p.z - origin.z);
  }

  lemma TurnsKeepLength(g: Angles, e: real, n: real, u: real, w: real, dx: real, dy: real, dz: real)
    requires g.Valid() && Turned(g.sinLambda, g.cosLambda, dx, dy, e, w) && Turned(g.sinPhi, g.cosPhi, w, dz, n, u)
    ensures Square(e) + Square(n) + Square(u) == Square(dx) + Square(dy) + Square(dz)
  {
    TurnKeepsLength(g.sinLambda, g.cosLambda, dx, dy, e, w);
    TurnKeepsLength(g.sinPhi, g.cosPhi, w, dz, n, u);
    assert e * e + (n * n + u * u) == dx * dx + dy * dy + dz * dz;
  }

  function Minus(v: Enu, w: Enu): Enu { Enu(v.e - w.e, v.n - w.n, v.u - w.u) }

  lemma DifferenceOf(a: real, b: real, c: real, p: Ecef, q: Ecef, o: Ecef)
    ensures a * (p.x - o.x) + b * (p.y - o.y) + c * (p.z - o.z) - (a * (q.x - o.x) + b * (q.y - o.y) + c * (q.z - o.z)) ==
            a * (p.x - q.x) + b * (p.y - q.y) + c * (p.z - q.z)
  {
  }

  /** The difference of two ENU readings is the reading of one point from the other. */
  lemma ReadingsSubtract(g: Angles, origin: Ecef, p: Ecef, q: Ecef)
    ensures Minus(EcefToEnu(g, origin, p), EcefToEnu(g, origin, q)) == EcefToEnu(g, q, p)
  {
    DifferenceOf(-g.sinLambda, g.cosLambda, 0.0, p, q, origin);
    DifferenceOf(-g.sinPhi * g.cosLambda, -g.sinPhi * g.sinLambda, g.cosPhi, p, q, origin);
    DifferenceOf(g.cosPhi * g.cosLambda, g.cosPhi * g.sinLambda, g.sinPhi, p, q, origin);
  }

  /** Distances between any two points are the same in both systems. */
  lemma DistanceIsPreserved(g: Angles, origin: Ecef, p: Ecef, q: Ecef)
    requires g.Valid()
    ensures Length2(Minus(EcefToEnu(g, origin, p), EcefToEnu(g, origin, q))) == Distance2(p, q)
  {
    ReadingsSubtract(g, origin, p, q);
    LengthKept(g, q, p);
  }

  // ----- the ellipsoid

  lemma PlaneLength(k: real, c: real, s: real, cl: real, x: real, y: real)
    requires s * s + cl * cl == 1.0 && x == k * c * cl && y == k * c * s
    ensures x * x + y * y == k * k * (c * c)
  {
    var r := k * c;
    assert x * x + y * y == r * r * (s * s + cl * cl);
    assert r * r == k * k * (c * c);
  }

  lemma AxisLength(k: real, m: real, n: real, s: real, z: real)
    requires k == m * n && z == k * s
    ensures z * z == m * m * (n * n) * (s * s)
  {
    assert k * k == m * m * (n * n);
    assert (k * s) * (k * s) == (k * k) * (s * s);
  }

  lemma EllipsoidEquation(m: real, nn: real, c2: real, s2: real, xy: real, zz: real, aa: real)
    requires s2 + c2 == 1.0 && xy == nn * c2 && zz == m * m * nn * s2 && nn * (1.0 - (1.0 - m) * s2) == aa
    ensures xy * m + zz == aa * m
  {
    assert xy == nn * (1.0 - s2);
    assert nn * (1.0 - s2) * m + m * m * nn * s2 == nn * (1.0 - (1.0 - m) * s2) * m;
  }

  lemma SurfaceEquation(g: Angles, n: real, m: real, aa: real, p: Ecef)
    requires g.Valid() && n * n * (1.0 - (1.0 - m) * (g.sinPhi * g.sinPhi)) == aa
    requires p == Ecef(n * g.cosPhi * g.cosLambda, n * g.cosPhi * g.sinLambda, m * n * g.sinPhi)
    ensures Form(p.x, p.y, p.z, m) == aa * m
  {
    PlaneLength(n, g.cosPhi, g.sinLambda, g.cosLambda, p.x, p.y);
    AxisLength(m * n, m, n, g.sinPhi, p.z);
    EllipsoidEquation(m, n * n, g.cosPhi * g.cosPhi, g.sinPhi * g.sinPhi, p.x * p.x + p.y * p.y, p.z * p.z, aa);
  }

  /** Every point of height zero lands on the ellipsoid. */
  lemma ZeroHeightIsOnEllipsoid(g: Angles, normal: real)
    requires g.Valid() && IsNormalRadius(g, normal)
    ensures OnEllipsoid(GeodeticToEcef(g, normal, 0.0))
  {
    SurfaceEquation(g, normal, 1.0 - E2, A * A, GeodeticToEcef(g, normal, 0.0));
  }

  /** Raising the reference point by `d` moves it straight up by `d`. */
  lemma RaisingMovesUp(g: Angles, normal: real, h: real, d: real)
    requires g.Valid()
    ensures GeodeticToEnu(g, normal, h, g, normal, h + d) == Enu(0.0, 0.0, d)
  {
    var o, p := GeodeticToEcef(g, normal, h), GeodeticToEcef(g, normal, h + d);
    Raised(normal, h, d, g.cosPhi, g.cosLambda);
    Raised(normal, h, d, g.cosPhi, g.sinLambda);
    Raised((1.0 - E2) * normal, h, d, 1.0, g.sinPhi);
    ConversionsAreInverse(g, o, p, Enu(0.0, 0.0, d));
  }

  lemma Raised(n: real, h: real, d: real, k: real, l: real)
    ensures (n + (h + d)) * k * l == k * l * d + (n + h) * k * l
  {
    assert (n + (h + d)) * k == d * k + (n + h) * k;
  }

  /** A reading of one geodetic position from another leads back to it. */
  lemma ReadingLeadsBack(g0: Angles, normal0: real, h0: real, g: Angles, normal: real, h: real)
    requires g0.Valid()
    ensures EnuToEcef(g0, GeodeticToEcef(g0, normal0, h0), GeodeticToEnu(g0, normal0, h0, g, normal, h)) ==
            GeodeticToEcef(g, normal, h)
    ensures Length2(GeodeticToEnu(g0, normal0, h0, g, normal, h)) ==
            Distance2(GeodeticToEcef(g, normal, h), GeodeticToEcef(g0, normal0, h0))
  {
    var o, p := GeodeticToEcef(g0, normal0, h0), GeodeticToEcef(g, normal, h);
    ConversionsAreInverse(g0, o, p, EcefToEnu(g0, o, p));
    LengthKept(g0, o, p);
  }

  /** The longitude is the angle from the X axis to the Y axis, and the latitude decides the side of the equator. */
  lemma AnglesAreDirections(g: Angles, normal: real, h: real)
    requires g.Valid()
    ensures var p := GeodeticToEcef(g, normal, h);
            && p.x * g.sinLambda == p.y * g.cosLambda
            && p.x * g.cosLambda + p.y * g.sinLambda == (normal + h) * g.cosPhi
            && ((1.0 - E2) * normal + h > 0.0 ==> (p.z > 0.0 <==> g.sinPhi > 0.0) && (p.z < 0.0 <==> g.sinPhi < 0.0))
  {
    Along((normal + h) * g.cosPhi, g.sinLambda, g.cosLambda);
    Sideways((1.0 - E2) * normal + h, g.sinPhi);
  }

  lemma Along(k: real, s: real, c: real)
    requires s * s + c * c == 1.0
    ensures (k * c) * s == (k * s) * c && (k * c) * c + (k * s) * s == k
  {
    assert (k * c) * c + (k * s) * s == k * (s * s + c * c);
  }

  lemma Sideways(k: real, s: real)
    ensures k > 0.0 ==> (k * s > 0.0 <==> s > 0.0) && (k * s < 0.0 <==> s < 0.0)
  {
    if k > 0.0 {
      if s > 0.0 {
        ProductPositive(k, s);
      } else if s < 0.0 {
        ProductNegative(k, s);
      }
    }
  }

  /**
   East is the direction of growing longitude: the east reading of any position is its distance from the
   axis times the sine of the difference of the longitudes.
   */
  lemma EastIsLongitude(g0: Angles, normal0: real, h0: real, g: Angles, normal: real, h: real)
    ensures GeodeticToEnu(g0, normal0, h0, g, normal, h).e ==
            (normal + h) * g.cosPhi * (g.sinLambda * g0.cosLambda - g.cosLambda * g0.sinLambda)
  {
    Eastwards((normal0 + h0) * g0.cosPhi, (normal + h) * g.cosPhi, g0.sinLambda, g0.cosLambda, g.sinLambda, g.cosLambda);
  }

  lemma Eastwards(k0: real, k: real, s0: real, c0: real, s: real, c: real)
    ensures -s0 * (k * c - k0 * c0) + c0 * (k * s - k0 * s0) == k * (s * c0 - c * s0)
  {
    assert -s0 * (k * c - k0 * c0) == k0 * c0 * s0 - k * c * s0;
    assert c0 * (k * s - k0 * s0) == k * s * c0 - k0 * s0 * c0;
  }

  /** North is the direction of the axis, as far as the latitude lets it be: a step along the axis reads as this. */
  lemma NorthIsAxis(g: Angles, o: Ecef, p: Ecef, d: real)
    ensures var v, w := EcefToEnu(g, o, p), EcefToEnu(g, o, p.(z := p.z + d));
            w.e == v.e && w.n == v.n + g.cosPhi * d && w.u == v.u + g.sinPhi * d
  {
    var dz := p.z - o.z;
    assert g.cosPhi * (dz + d) == g.cosPhi * dz + g.cosPhi * d;
    assert g.sinPhi * (dz + d) == g.sinPhi * dz + g.sinPhi * d;
  }

  /** N is the distance from the surface to the Z axis along the normal: going down by it ends on the axis. */
  lemma NormalReachesAxis(g: Angles, normal: real)
    ensures var end := EnuToEcef(g, GeodeticToEcef(g, normal, 0.0), Enu(0.0, 0.0, -normal));
            end.x == 0.0 && end.y == 0.0
  {
    Raised(normal, 0.0, -normal, g.cosPhi, g.cosLambda);
    Raised(normal, 0.0, -normal, g.cosPhi, g.sinLambda);
  }

  // ----- the reference plane touches the ellipsoid, so height is distance

  /** The height above the reference plane of a point, times N. */
  lemma UpTimesNormal(g: Angles, n: real, m: real, p: Ecef, o: Ecef, v: Enu)
    requires o == Ecef(n * g.cosPhi * g.cosLambda, n * g.cosPhi * g.sinLambda, m * n * g.sinPhi)
    requires v == EcefToEnu(g, o, p)
    ensures n * v.u * m == ((p.x - o.x) * o.x + (p.y - o.y) * o.y) * m + (p.z - o.z) * o.z
  {
    var a, b := g.cosPhi * g.cosLambda, g.cosPhi * g.sinLambda;
    assert o.x == n * a && o.y == n * b;
    UpTerms(n, a, b, g.sinPhi, p.x - o.x, p.y - o.y, p.z - o.z, m, o, v.u);
  }

  lemma UpTerms(n: real, a: real, b: real, c: real, x: real, y: real, z: real, m: real, o: Ecef, u: real)
    requires o == Ecef(n * a, n * b, m * n * c) && u == a * x + b * y + c * z
    ensures n * u * m == (x * o.x + y * o.y) * m + z * o.z
  {
    assert x * o.x + y * o.y == n * (a * x + b * y);
    assert z * o.z == n * (c * z) * m;
  }

  lemma FlatIsPositive()
    ensures 0.0 < 1.0 - E2
  {
  }

  lemma Polar(p: Ecef, o: Ecef, m: real)
    ensures 2.0 * (((p.x - o.x) * o.x + (p.y - o.y) * o.y) * m + (p.z - o.z) * o.z) ==
            Form(p.x, p.y, p.z, m) - Form(o.x, o.y, o.z, m) - Form(p.x - o.x, p.y - o.y, p.z - o.z, m)
  {
  }

  /** Seen from a point `o` of the ellipsoid, another point of it is below the horizon by its form. */
  lemma UpIsForm(g: Angles, normal: real, p: Ecef, o: Ecef, v: Enu)
    requires g.Valid() && IsNormalRadius(g, normal) && OnEllipsoid(p)
    requires o == GeodeticToEcef(g, normal, 0.0) && v == EcefToEnu(g, o, p)
    ensures 2.0 * (normal * v.u * (1.0 - E2)) == -Form(p.x - o.x, p.y - o.y, p.z - o.z, 1.0 - E2)
  {
    ZeroHeightIsOnEllipsoid(g, normal);
    UpTimesNormal(g, normal, 1.0 - E2, p, o, v);
    Polar(p, o, 1.0 - E2);
  }

  lemma FormIsPositive(x: real, y: real, z: real, m: real)
    requires m > 0.0
    ensures Form(x, y, z, m) >= 0.0
  {
    SquareNotNegative(x);
    SquareNotNegative(y);
    SquareNotNegative(z);
    ProductNotNegative(x * x + y * y, m);
  }

  lemma Signs(n: real, u: real, m: real)
    requires n > 0.0 && m > 0.0 && n * u * m <= 0.0
    ensures u <= 0.0
  {
  }

  /** From a reference point on the ellipsoid no other point of the ellipsoid is above the horizon. */
  lemma EllipsoidIsBelowHorizon(g: Angles, normal: real, p: Ecef)
    requires g.Valid() && IsNormalRadius(g, normal) && OnEllipsoid(p)
    ensures EcefToEnu(g, GeodeticToEcef(g, normal, 0.0), p).u <= 0.0
  {
    var o := GeodeticToEcef(g, normal, 0.0);
    var v := EcefToEnu(g, o, p);
    FlatIsPositive();
    UpIsForm(g, normal, p, o, v);
    FormIsPositive(p.x - o.x, p.y - o.y, p.z - o.z, 1.0 - E2);
    Signs(normal, v.u, 1.0 - E2);
  }

  /** By how much a point of the ellipsoid is farther from the point of height `h` than its foot is. */
  function Excess(o: Ecef, q: Ecef, normal: real, h: real, m: real): real
  {
    normal * m * Distance2(q, o) + h * Form(q.x - o.x, q.y - o.y, q.z - o.z, m)
  }

  lemma ExcessDecides(g: Angles, normal: real, h: real, q: Ecef)
    requires g.Valid() && IsNormalRadius(g, normal) && OnEllipsoid(q)
    ensures Distance2(GeodeticToEcef(g, normal, h), q) >= h * h <==>
            Excess(GeodeticToEcef(g, normal, 0.0), q, normal, h, 1.0 - E2) >= 0.0
  {
    var o, p := GeodeticToEcef(g, normal, 0.0), GeodeticToEcef(g, normal, h);
    var v := EcefToEnu(g, o, q);
    RaisingMovesUp(g, normal, 0.0, h);
    assert EcefToEnu(g, o, p) == Enu(0.0, 0.0, h);
    DistanceIsPreserved(g, o, p, q);
    LengthKept(g, o, q);
    UpIsForm(g, normal, q, o, v);
    FlatIsPositive();
    Balance(normal, 1.0 - E2, v, h, Distance2(q, o), Form(q.x - o.x, q.y - o.y, q.z - o.z, 1.0 - E2));
  }

  lemma Balance(n: real, m: real, v: Enu, h: real, d: real, f: real)
    requires n > 0.0 && m > 0.0 && Length2(v) == d && 2.0 * (n * v.u * m) == -f
    ensures Length2(Minus(Enu(0.0, 0.0, h), v)) >= h * h <==> n * m * d + h * f >= 0.0
  {
    var x := d - 2.0 * (h * v.u);
    ProductPositive(n, m);
    LowerLength(v, h);
    ScaledExcess(n * m, h, v.u, d, f, x);
    ProductSign(n * m, x);
  }

  lemma LowerLength(v: Enu, h: real)
    ensures Length2(Minus(Enu(0.0, 0.0, h), v)) == Length2(v) - 2.0 * (h * v.u) + h * h
  {
  }

  lemma ScaledExcess(k: real, h: real, u: real, d: real, f: real, x: real)
    requires f == -(2.0 * (k * u)) && x == d - 2.0 * (h * u)
    ensures k * x == k * d + h * f
  {
    assert h * f == -(2.0 * (k * (h * u)));
    assert k * x == k * d - 2.0 * (k * (h * u));
  }

  lemma FormIsShorter(x: real, y: real, z: real, m: real)
    requires 0.0 < m <= 1.0
    ensures 0.0 <= Form(x, y, z, m) <= Square(x) + Square(y) + Square(z)
  {
    FormIsPositive(x, y, z, m);
    SquareNotNegative(x);
    SquareNotNegative(y);
    ProductNotNegative(x * x + y * y, 1.0 - m);
    assert (x * x + y * y) * (1.0 - m) == x * x + y * y - (x * x + y * y) * m;
  }

  lemma HighEnough(k: real, h: real, d: real, f: real)
    requires 0.0 <= k && -k <= h && 0.0 <= f <= d
    ensures k * d + h * f >= 0.0
  {
    ProductNotNegative(k, d - f);
    ProductNotNegative(k + h, f);
    assert k * d + h * f == k * (d - f) + (k + h) * f;
  }

  /**
   The geodetic height is the distance to the ellipsoid, above it and below it down to the equatorial
   plane: no point of the ellipsoid is nearer than the foot.
   */
  lemma HeightIsDistance(g: Angles, normal: real, h: real, q: Ecef)
    requires g.Valid() && IsNormalRadius(g, normal) && -((1.0 - E2) * normal) <= h && OnEllipsoid(q)
    ensures Distance2(GeodeticToEcef(g, normal, h), GeodeticToEcef(g, normal, 0.0)) == h * h
    ensures Distance2(GeodeticToEcef(g, normal, h), q) >= h * h
  {
    var o, p := GeodeticToEcef(g, normal, 0.0), GeodeticToEcef(g, normal, h);
    RaisingMovesUp(g, normal, 0.0, h);
    LengthKept(g, o, p);
    FlatIsPositive();
    FormIsShorter(q.x - o.x, q.y - o.y, q.z - o.z, 1.0 - E2);
    HighEnough(normal * (1.0 - E2), h, Distance2(q, o), Form(q.x - o.x, q.y - o.y, q.z - o.z, 1.0 - E2));
    ExcessDecides(g, normal, h, q);
  }

  // ----- below the equatorial plane another point is nearer

  /** Off the equator it is the mirror image of the foot. */
  lemma MirrorIsNearer(o: Ecef, normal: real, h: real, m: real) returns (q: Ecef)
    requires h < -(m * normal) && o.z != 0.0
    ensures Form(q.x, q.y, q.z, m) == Form(o.x, o.y, o.z, m)
    ensures Excess(o, q, normal, h, m) < 0.0
  {
    q := Ecef(o.x, o.y, -o.z);
    var d := 4.0 * (o.z * o.z);
    assert Distance2(q, o) == d && Form(q.x - o.x, q.y - o.y, q.z - o.z, m) == d;
    assert o.z * o.z > 0.0;
    ProductNegative(d, normal * m + h);
    assert d * (normal * m + h) == normal * m * d + h * d;
  }

  lemma SmallFactor(p: real, g: real) returns (k: real)
    requires g > 0.0
    ensures k > 0.0 && p * (k * k) < g
  {
    if p <= 0.0 {
      k := 1.0;
    } else {
      k := g / (p + g);
      assert k * (p + g) == g;
      Distribute(k, p, g);
      ProductPositive(k, p);
      ProductPositive(k, g);
      FactorIsSmall(p, g, k, k * p, k * g);
    }
  }

  lemma FactorIsSmall(p: real, g: real, k: real, y: real, z: real)
    requires g > 0.0 && y == k * p && z == k * g && y > 0.0 && z > 0.0 && y + z == g
    ensures p * (k * k) < g
  {
    BelowOne(k, g, z);
    Shrinks(y, k, g);
    assert p * (k * k) == y * k;
  }

  lemma Distribute(k: real, p: real, g: real)
    ensures k * p + k * g == k * (p + g)
  {
  }

  lemma Shrinks(y: real, k: real, g: real)
    requires 0.0 < y < g && k < 1.0
    ensures y * k < g
  {
    ProductPositive(y, 1.0 - k);
    assert y * (1.0 - k) == y - y * k;
  }

  lemma BelowOne(k: real, g: real, z: real)
    requires g > 0.0 && z == k * g && z < g
    ensures k < 1.0
  {
    ProductSign(g, k - 1.0);
    assert g * (k - 1.0) == z - g;
  }

  /** On the equator it is a point of the same meridian, off the equatorial plane. */
  lemma MeridianIsNearer(o: Ecef, a: real, aa: real, b: real, h: real, m: real) returns (q: Ecef)
    requires 0.0 < m && 0.0 < aa && b * b == aa * m && h < -(m * a)
    requires o.z == 0.0 && o.x * o.x + o.y * o.y == aa
    ensures Form(q.x, q.y, q.z, m) == aa * m
    ensures Excess(o, q, a, h, m) < 0.0
  {
    var k := SmallFactor(a + h, -(a * m + h));
    var w := 1.0 + k * k;
    var s, c := 2.0 * k / w, (1.0 - k * k) / w;
    Parametrised(k, w, s, c);
    q := Ecef(c * o.x, c * o.y, b * s);
    OnMeridian(o, q, aa, b, m, s, c);
    OffMeridian(o, q, aa, b, m, s, c, k * s);
    SquareOfProduct(k, s);
    ProductPositive(s, s);
    ExcessOnMeridian(a, h, m, k * k, s * s, aa, Distance2(q, o), Form(q.x - o.x, q.y - o.y, q.z - o.z, m));
  }

  lemma SquareOfProduct(k: real, s: real)
    ensures (k * s) * (k * s) == (k * k) * (s * s)
  {
  }

  lemma Parametrised(k: real, w: real, s: real, c: real)
    requires k > 0.0 && w == 1.0 + k * k && s == 2.0 * k / w && c == (1.0 - k * k) / w
    ensures s > 0.0 && c * c + s * s == 1.0 && 1.0 - c == k * s
  {
    assert w > 0.0 && s * w == 2.0 * k && c * w == 1.0 - k * k;
    assert (1.0 - c) * w == (k * s) * w;
    assert (c * c + s * s) * (w * w) == w * w;
  }

  lemma OnMeridian(o: Ecef, q: Ecef, aa: real, b: real, m: real, s: real, c: real)
    requires q == Ecef(c * o.x, c * o.y, b * s) && c * c + s * s == 1.0 && b * b == aa * m
    requires o.x * o.x + o.y * o.y == aa
    ensures Form(q.x, q.y, q.z, m) == aa * m
  {
    assert q.x * q.x + q.y * q.y == c * c * aa;
    assert q.z * q.z == (aa * m) * (s * s);
    assert c * c * aa * m + (aa * m) * (s * s) == aa * m * (c * c + s * s);
  }

  lemma OffMeridian(o: Ecef, q: Ecef, aa: real, b: real, m: real, s: real, c: real, r: real)
    requires q == Ecef(c * o.x, c * o.y, b * s) && b * b == aa * m && 1.0 - c == r
    requires o.z == 0.0 && o.x * o.x + o.y * o.y == aa
    ensures Distance2(q, o) == aa * (r * r + m * (s * s))
    ensures Form(q.x - o.x, q.y - o.y, q.z - o.z, m) == aa * m * (r * r + s * s)
  {
    var dx, dy, dz := q.x - o.x, q.y - o.y, q.z - o.z;
    assert dx * dx + dy * dy == r * r * aa by {
      assert dx == -r * o.x && dy == -r * o.y;
      assert dx * dx == r * r * (o.x * o.x) && dy * dy == r * r * (o.y * o.y);
    }
    assert dz * dz == (aa * m) * (s * s);
  }

  lemma ExcessOnMeridian(a: real, h: real, m: real, j: real, t: real, aa: real, d: real, f: real)
    requires 0.0 < aa && 0.0 < m && 0.0 < t && (a + h) * j < -(a * m + h)
    requires d == aa * (j * t + m * t) && f == aa * m * (j * t + t)
    ensures a * m * d + h * f < 0.0
  {
    var x := (a + h) * j + (a * m + h);
    ExcessIdentity(a, h, m, j, t, aa, d, f, x);
    ProductPositive(aa, m);
    ProductPositive(aa * m, t);
    ProductNegative(aa * m * t, x);
  }

  lemma ExcessIdentity(a: real, h: real, m: real, j: real, t: real, aa: real, d: real, f: real, x: real)
    requires d == aa * (j * t + m * t) && f == aa * m * (j * t + t) && x == (a + h) * j + (a * m + h)
    ensures a * m * d + h * f == aa * m * t * x
  {
    assert d == aa * t * (j + m) && f == aa * m * t * (j + 1.0);
    var u := aa * m * t;
    assert a * m * d == u * (a * (j + m));
    assert h * f == u * (h * (j + 1.0));
    assert a * (j + m) + h * (j + 1.0) == x;
  }

  /** At sine zero the normal radius is the equatorial one, and the foot is on the equator. */
  lemma OnEquator(g: Angles, normal: real, o: Ecef)
    requires g.Valid() && IsNormalRadius(g, normal) && g.sinPhi == 0.0 && o == GeodeticToEcef(g, normal, 0.0)
    ensures normal == A && o.z == 0.0 && o.x * o.x + o.y * o.y == A * A
  {
    SameSquare(normal, A);
    PlaneLength(normal, g.cosPhi, g.sinLambda, g.cosLambda, o.x, o.y);
  }

  lemma SameSquare(x: real, y: real)
    requires x > 0.0 && y > 0.0 && x * x == y * y
    ensures x == y
  {
    assert (x - y) * (x + y) == 0.0;
  }

  lemma PolarRadius(b: real)
    requires b == A * (1.0 - F)
    ensures b * b == A * A * (1.0 - E2)
  {
    assert (1.0 - F) * (1.0 - F) == 1.0 - F * (2.0 - F);
    assert b * b == A * A * ((1.0 - F) * (1.0 - F));
  }

  lemma FootIsOffEquator(g: Angles, normal: real)
    requires normal > 0.0 && g.sinPhi != 0.0
    ensures GeodeticToEcef(g, normal, 0.0).z != 0.0
  {
    FlatIsPositive();
    ProductPositive(1.0 - E2, normal);
    var k := (1.0 - E2) * normal;
    assert k * g.sinPhi != 0.0;
  }

  /** Below the equatorial plane some point of the ellipsoid is nearer than the foot. */
  lemma SomePointIsNearer(g: Angles, normal: real, h: real) returns (q: Ecef)
    requires g.Valid() && IsNormalRadius(g, normal) && h < -((1.0 - E2) * normal)
    ensures OnEllipsoid(q) && Distance2(GeodeticToEcef(g, normal, h), q) < h * h
  {
    var o := GeodeticToEcef(g, normal, 0.0);
    FlatIsPositive();
    ZeroHeightIsOnEllipsoid(g, normal);
    if g.sinPhi != 0.0 {
      FootIsOffEquator(g, normal);
      q := MirrorIsNearer(o, normal, h, 1.0 - E2);
    } else {
      OnEquator(g, normal, o);
      PolarRadius(A * (1.0 - F));
      q := MeridianIsNearer(o, A, A * A, A * (1.0 - F), h, 1.0 - E2);
    }
    ExcessDecides(g, normal, h, q);
  }

  /** Exactly the heights for which the geodetic height is the distance to the ellipsoid. */
  lemma HeightIsDistanceExactly(g: Angles, normal: real, h: real)
    requires g.Valid() && IsNormalRadius(g, normal)
    ensures -((1.0 - E2) * normal) <= h <==>
            forall q :: OnEllipsoid(q) ==> Distance2(GeodeticToEcef(g, normal, h), q) >= h * h
  {
    if -((1.0 - E2) * normal) <= h {
      forall q | OnEllipsoid(q)
        ensures Distance2(GeodeticToEcef(g, normal, h), q) >= h * h
      {
        HeightIsDistance(g, normal, h, q);
      }
    } else {
      var q := SomePointIsNearer(g, normal, h);
    }
  }
}
