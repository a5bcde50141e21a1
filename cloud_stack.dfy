/**
 * The cloud-migration panel: every figure is an expression of one slider,
 * the migration progress p in [0, 100].
 */
module CloudStack {

  /** The eight legacy data centres drawn on the left. */
  const ServerCount := 8
  /** The six nodes orbiting the cloud on the right. */
  const OrbitNodeCount := 6

  /** A value the range input can hold: an integer from 0 to 100. */
  predicate IsSliderValue(p: real)
  {
    0.0 <= p <= 100.0 && p.Floor as real == p
  }

  /** Data centers closed at migration percentage p: the floor of p% of the eight servers. */
  function DataCentersClosed(p: real): (closed: int)
    ensures 0.0 <= p <= 100.0 ==> 0 <= closed <= ServerCount
  {
    ((p / 100.0) * 8.0).Floor
  }

  /** The "Data Centers Active" figure. */
  function ActiveDataCenters(p: real): (active: int)
    ensures 0.0 <= p <= 100.0 ==> 0 <= active <= ServerCount
  {
    ServerCount - DataCentersClosed(p)
  }

  /** More progress never reopens a data centre: 0 closed at 0, 4 at 50, all 8 at 100. */
  lemma ClosedMonotone(p: real, q: real)
    requires p <= q
    ensures DataCentersClosed(p) <= DataCentersClosed(q)
    ensures DataCentersClosed(0.0) == 0 && DataCentersClosed(50.0) == 4 && DataCentersClosed(100.0) == 8
  {
  }

  /** Server i is drawn lit while i is below the active count. */
  predicate ServerActive(i: int, p: real)
    ensures 0.0 <= p < 12.5 ==> (ServerActive(i, p) <==> i < ServerCount)
    ensures p >= 100.0 && i >= 0 ==> !ServerActive(i, p)
  {
    i < ServerCount - DataCentersClosed(p)
  }

  /** How many of the servers 0 .. n-1 are drawn lit. */
  function LitServers(n: nat, p: real): (count: nat)
    ensures count <= n
  {
    if n == 0 then 0 else LitServers(n - 1, p) + (if ServerActive(n - 1, p) then 1 else 0)
  }

  /** The lit servers among the first n are the first min(n, active) ones. */
  lemma {:induction false} LitServersPrefix(n: nat, p: real)
    requires 0.0 <= p <= 100.0
    ensures LitServers(n, p) == if n <= ActiveDataCenters(p) then n else ActiveDataCenters(p)
  {
    if n > 0 {
      LitServersPrefix(n - 1, p);
    }
  }

  /** The picture agrees with the figure: exactly `8 - closed` servers are lit. */
  lemma LitServersMatchFigure(p: real)
    requires 0.0 <= p <= 100.0
    ensures LitServers(ServerCount, p) == ActiveDataCenters(p)
  {
    LitServersPrefix(ServerCount, p);
  }

  /** The "Applications Migrated" figure: the slider value rounded down. */
  function CloudApps(p: real): (apps: int)
    ensures apps as real <= p < apps as real + 1.0
  {
    p.Floor
  }

  /** For every slider value the floor changes nothing. */
  lemma CloudAppsOfSliderValue(p: real)
    requires IsSliderValue(p)
    ensures CloudApps(p) as real == p
  {
  }

  /** The development velocity multiplier: one plus a 25th of p, from 1x to 5x. */
  function InnovationSpeed(p: real): (speed: real)
    ensures 0.0 <= p <= 100.0 ==> 1.0 <= speed <= 5.0
  {
    1.0 + p / 25.0
  }

  /** The velocity card is enlarged exactly from p = 50 on. */
  lemma VelocityHighlighted(p: real)
    ensures InnovationSpeed(p) >= 3.0 <==> p >= 50.0
  {
  }

  /** Orbit node i is shown once the progress passes 15 i. */
  predicate OrbitNodeVisible(i: nat, p: real)
    ensures OrbitNodeVisible(i, p) ==> p > 0.0
    ensures p > 75.0 && i < OrbitNodeCount ==> OrbitNodeVisible(i, p)
  {
    p > (i * 15) as real
  }

  /**
   * More progress never hides a node, a visible node has every lower-numbered
   * node visible too, and on the slider node 0 is hidden only at 0.
   */
  lemma OrbitVisibilityGrows(i: nat, j: nat, p: real, q: real)
    requires p <= q && j <= i
    ensures OrbitNodeVisible(i, p) ==> OrbitNodeVisible(i, q) && OrbitNodeVisible(j, p)
    ensures 0.0 <= p ==> (!OrbitNodeVisible(0, p) <==> p == 0.0)
  {
  }
}
