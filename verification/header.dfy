/**
  The page header: the connectivity indicator fed by health probes, and the
  navigation bar's active-item test.
 */
module Header {
  /** The indicator's two flags. */
  datatype Connectivity = Connectivity(connected: bool, checking: bool)

  /** Before the first probe: not connected, checking. */
  const InitialConnectivity := Connectivity(false, true)

  /** How one health probe ended: it answered whether the admin endpoint
      was reachable, or it threw. */
  datatype Probe = Resolved(reachable: bool) | Threw

  /** `checkConnection`: `connected` takes the probe's answer (false when
      it threw) and `checking` is lowered, whatever the outcome. */
  function CheckConnection(c: Connectivity, p: Probe): (r: Connectivity)
    ensures !r.checking
    ensures r.connected <==> p == Resolved(true)
  {
    match p
    case Resolved(b) => Connectivity(b, false)
    case Threw => Connectivity(false, false)
  }

  /** The indicator after a sequence of completed probes (the first on mount,
      the rest from the timer or the reconnect button). */
  function AfterProbes(c: Connectivity, probes: seq<Probe>): Connectivity
    decreases |probes|
  {
    if probes == [] then c else AfterProbes(CheckConnection(c, probes[0]), probes[1..])
  }

  /** Once any probe has completed, `checking` is down for good, and
      `connected` reflects only the last probe. */
  lemma {:induction false} ProbesSettle(c: Connectivity, probes: seq<Probe>)
    requires probes != []
    ensures !AfterProbes(c, probes).checking
    ensures AfterProbes(c, probes).connected <==> probes[|probes| - 1] == Resolved(true)
    decreases |probes|
  {
    if |probes| > 1 {
      ProbesSettle(CheckConnection(c, probes[0]), probes[1..]);
      assert probes[1..][|probes[1..]| - 1] == probes[|probes| - 1];
    }
  }

  /** Until the first probe completes, the initial state is kept. */
  lemma NoProbeKeepsChecking()
    ensures AfterProbes(InitialConnectivity, []).checking
    ensures !AfterProbes(InitialConnectivity, []).connected
  {
  }

  /** What the indicator draws. */
  datatype Indicator = Spinner | Connected | Disconnected

  function ShowIndicator(c: Connectivity): (i: Indicator)
    ensures i == Spinner <==> c.checking
    ensures i == Connected <==> !c.checking && c.connected
  {
    if c.checking then Spinner else if c.connected then Connected else Disconnected
  }

  /** The reconnect button is disabled while checking, and its label says
      so. */
  function ReconnectLabel(c: Connectivity): (l: string)
    ensures l == "Verificando..." <==> c.checking
  {
    if c.checking then "Verificando..." else "Reconectar"
  }

  /** After the first probe the spinner is never shown again and the reconnect
      button stays enabled. */
  lemma SpinnerOnlyBeforeFirstProbe(probes: seq<Probe>)
    requires probes != []
    ensures ShowIndicator(AfterProbes(InitialConnectivity, probes)) != Spinner
    ensures ReconnectLabel(AfterProbes(InitialConnectivity, probes)) == "Reconectar"
  {
    ProbesSettle(InitialConnectivity, probes);
  }

  const NavPaths := ["/", "/requests", "/create"]

  /** A navigation item is active when the pathname equals its path exactly. */
  function IsActive(pathname: string, item: nat): (active: bool)
    requires item < |NavPaths|
    ensures active <==> pathname == NavPaths[item]
  {
    pathname == NavPaths[item]
  }

  /** At most one item is active; exactly one when the pathname is one of the
      three paths, none on an edit page, a detail page or with a trailing
      slash. */
  lemma ActiveItemIsUnique(pathname: string)
    ensures forall i, j :: 0 <= i < j < |NavPaths| ==> !(IsActive(pathname, i) && IsActive(pathname, j))
    ensures (exists i :: 0 <= i < |NavPaths| && IsActive(pathname, i)) <==> pathname in NavPaths
    ensures !IsActive("/requests/", 1) && !IsActive("/edit/abc", 0)
  {
    if pathname in NavPaths {
      var i :| 0 <= i < |NavPaths| && NavPaths[i] == pathname;
      assert IsActive(pathname, i);
    }
  }
}
