/** The two files rendered for kubelet, and the line reader that undoes them. */
module Kubelet {
  import opened Storage
  import opened Intent

  const KUBELET_DIR := "/var/lib/nodeos/k8s/kubelet/"
  const CLUSTER_CA := "cluster-ca.pem"
  const CLUSTER_CA_PATH := KUBELET_DIR + CLUSTER_CA

  /** Text made of lines, each ended by a newline. */
  function Join(lines: seq<string>): string {
    if lines == [] then "" else lines[0] + "\n" + Join(lines[1..])
  }

  /** Text as lines; an unfinished last line counts. */
  function Lines(text: string): seq<string>
    decreases |text|
  {
    if text == "" then []
    else
      var end := FindChar(text, '\n');
      if end.None? then [text] else [text[..end.value]] + Lines(text[end.value + 1..])
  }

  predicate OneLine(s: string) {
    '\n' !in s
  }

  lemma {:induction false} JoinConcat(a: seq<string>, b: seq<string>)
    ensures Join(a + b) == Join(a) + Join(b)
  {
    if a == [] {
      assert a + b == b;
    } else {
      assert (a + b)[1..] == a[1..] + b;
      JoinConcat(a[1..], b);
    }
  }

  lemma FirstLine(line: string, rest: string)
    requires OneLine(line)
    ensures Lines(line + "\n" + rest) == [line] + Lines(rest)
  {
    var text := line + "\n" + rest;
    assert text[..|line|] == line;
    FindCharIs(text, '\n', |line|);
    assert text[|line| + 1..] == rest;
  }

  lemma JoinFirst(lines: seq<string>, rest: string)
    requires lines != []
    ensures Join(lines) + rest == lines[0] + "\n" + (Join(lines[1..]) + rest)
  {
    assert Join(lines) == lines[0] + "\n" + Join(lines[1..]);
  }

  ghost predicate AllOneLine(lines: seq<string>) {
    forall l | l in lines :: OneLine(l)
  }

  lemma TailOneLine(lines: seq<string>)
    requires lines != [] && AllOneLine(lines)
    ensures OneLine(lines[0]) && AllOneLine(lines[1..])
  {
  }

  lemma ConsConcat(lines: seq<string>, more: seq<string>)
    requires lines != []
    ensures [lines[0]] + (lines[1..] + more) == lines + more
  {
  }

  lemma LinesOfFirst(lines: seq<string>, rest: string, more: seq<string>)
    requires lines != [] && OneLine(lines[0])
    requires Lines(Join(lines[1..]) + rest) == more
    ensures Lines(Join(lines) + rest) == [lines[0]] + more
  {
    FirstLine(lines[0], Join(lines[1..]) + rest);
    JoinFirst(lines, rest);
  }

  /** Joining whole lines and splitting again gives the lines back. */
  lemma {:induction false} LinesOfJoin(lines: seq<string>, rest: string)
    requires AllOneLine(lines)
    ensures Lines(Join(lines) + rest) == lines + Lines(rest)
  {
    if lines == [] {
      assert Join(lines) + rest == rest;
      assert lines + Lines(rest) == Lines(rest);
    } else {
      TailOneLine(lines);
      LinesOfJoin(lines[1..], rest);
      LinesOfFirst(lines, rest, lines[1..] + Lines(rest));
      ConsConcat(lines, Lines(rest));
    }
  }

  // ---- the line reader ----

  /** What follows `key` on the first line that starts with it. */
  function Field(lines: seq<string>, key: string): Option<string> {
    if lines == [] then None
    else if key <= lines[0] then Some(lines[0][|key|..])
    else Field(lines[1..], key)
  }

  lemma {:induction false} FieldAfter(before: seq<string>, key: string, value: string, after: seq<string>)
    requires forall l | l in before :: !(key <= l)
    ensures Field(before + [key + value] + after, key) == Some(value)
  {
    var all := before + [key + value] + after;
    if before == [] {
      assert all[0] == key + value && key <= all[0];
    } else {
      assert before[0] in before && forall l | l in before[1..] :: l in before;
      assert all[0] == before[0] && all[1..] == before[1..] + [key + value] + after;
      FieldAfter(before[1..], key, value, after);
    }
  }

  /** The line right under the line `head`. */
  function Below(lines: seq<string>, head: string): Option<string> {
    if |lines| < 2 then None
    else if lines[0] == head then Some(lines[1])
    else Below(lines[1..], head)
  }

  lemma {:induction false} BelowAfter(before: seq<string>, head: string, next: string, after: seq<string>)
    requires head !in before
    ensures Below(before + [head] + [next] + after, head) == Some(next)
  {
    var all := before + [head] + [next] + after;
    if before == [] {
      assert all[0] == head && all[1] == next;
    } else {
      assert all[0] == before[0] && all[1..] == before[1..] + [head] + [next] + after;
      BelowAfter(before[1..], head, next, after);
    }
  }

  const ITEM := "  - "

  function Items(lines: seq<string>): seq<string> {
    if lines == [] || !(ITEM <= lines[0]) then [] else [lines[0][|ITEM|..]] + Items(lines[1..])
  }

  /** The list items right under the line `head`. */
  function ListUnder(lines: seq<string>, head: string): seq<string> {
    if lines == [] then []
    else if lines[0] == head then Items(lines[1..])
    else ListUnder(lines[1..], head)
  }

  function ItemLines(values: seq<string>): (lines: seq<string>)
    ensures |lines| == |values|
    ensures forall i | 0 <= i < |values| :: lines[i] == ITEM + values[i]
  {
    if values == [] then [] else [ITEM + values[0]] + ItemLines(values[1..])
  }

  lemma {:induction false} ItemsOf(values: seq<string>, after: seq<string>)
    requires after != [] ==> !(ITEM <= after[0])
    ensures Items(ItemLines(values) + after) == values
  {
    var all := ItemLines(values) + after;
    if values == [] {
      assert all == after;
    } else {
      assert all[0] == ITEM + values[0] && ITEM <= all[0];
      assert all[1..] == ItemLines(values[1..]) + after;
      ItemsOf(values[1..], after);
      assert values == [values[0]] + values[1..];
    }
  }

  lemma {:induction false} ListAfter(before: seq<string>, head: string, values: seq<string>, after: seq<string>)
    requires head !in before
    requires after != [] ==> !(ITEM <= after[0])
    ensures ListUnder(before + [head] + ItemLines(values) + after, head) == values
  {
    var all := before + [head] + ItemLines(values) + after;
    if before == [] {
      assert all[0] == head && all[1..] == ItemLines(values) + after;
      ItemsOf(values, after);
    } else {
      assert all[0] == before[0] && all[1..] == before[1..] + [head] + ItemLines(values) + after;
      ListAfter(before[1..], head, values, after);
    }
  }

  // ---- KubeletConfiguration ----

  const DOMAIN := "clusterDomain: "
  const DNS := "clusterDNS:"
  const CLIENT_CA := "    clientCAFile: "

  const DRIVER := "cgroupDriver: "
  const ENDPOINT := "containerRuntimeEndpoint: "
  const ROTATE := "rotateCertificates: "
  const ANONYMOUS := "  anonymous:"
  const WEBHOOK := "  webhook:"
  const AUTHORIZATION := "authorization:"
  const RUNTIME_SOCKET := "unix:///run/containerd/containerd.sock"

  const API_VERSION := "apiVersion: " + "kubelet.config.k8s.io/v1beta1"
  const RUNTIME := ENDPOINT + RUNTIME_SOCKET
  const CONFIG_HEAD: seq<string> := [API_VERSION, "kind: KubeletConfiguration", DRIVER + "cgroupfs", RUNTIME]

  const CONFIG_AUTHENTICATION: seq<string> := [
    ROTATE + "true",
    "authentication:",
    ANONYMOUS,
    "    enabled: false",
    WEBHOOK,
    "    enabled: true"]

  const CONFIG_TAIL: seq<string> := CONFIG_AUTHENTICATION + [
    "  x509:",
    CLIENT_CA + CLUSTER_CA_PATH,
    AUTHORIZATION,
    "  mode: Webhook"]

  function KubeletConfig(intent: NodeIntent): string {
    Join(CONFIG_HEAD + [DOMAIN + intent.clusterDomain] + [DNS] + ItemLines(intent.clusterDns) + CONFIG_TAIL)
  }

  /** `render_kubelet_config`: the DNS list is built entry by entry. */
  method RenderKubeletConfig(intent: NodeIntent) returns (text: string)
    ensures text == KubeletConfig(intent)
  {
    var dns := "";
    for i := 0 to |intent.clusterDns|
      invariant dns == Join(ItemLines(intent.clusterDns[..i]))
    {
      dns := dns + (ITEM + intent.clusterDns[i] + "\n");
      assert ItemLines(intent.clusterDns[..i + 1]) == ItemLines(intent.clusterDns[..i]) + [ITEM + intent.clusterDns[i]];
      JoinConcat(ItemLines(intent.clusterDns[..i]), [ITEM + intent.clusterDns[i]]);
      assert Join([ITEM + intent.clusterDns[i]]) == ITEM + intent.clusterDns[i] + "\n" + "";
    }
    assert intent.clusterDns[..|intent.clusterDns|] == intent.clusterDns;
    var head := CONFIG_HEAD + [DOMAIN + intent.clusterDomain] + [DNS];
    text := Join(head) + dns + Join(CONFIG_TAIL);
    JoinConcat(head, ItemLines(intent.clusterDns));
    JoinConcat(head + ItemLines(intent.clusterDns), CONFIG_TAIL);
  }

  function ReadDomain(text: string): Option<string> {
    Field(Lines(text), DOMAIN)
  }

  function ReadDns(text: string): seq<string> {
    ListUnder(Lines(text), DNS)
  }

  /** Lines that begin unlike both keys. */
  lemma OtherLine(line: string)
    requires |line| > 1 && (line[0] != 'c' || line[1] != 'l')
    ensures !(DOMAIN <= line) && line != DNS
  {
    assert DOMAIN[0] == DNS[0] == 'c' && DOMAIN[1] == DNS[1] == 'l';
  }

  ghost predicate Other(line: string) {
    !(DOMAIN <= line) && line != DNS
  }

  lemma HeadLinesAreOneLine()
    ensures AllOneLine(CONFIG_HEAD)
  {
    assert OneLine(API_VERSION) && OneLine(RUNTIME) && OneLine(DRIVER + "cgroupfs");
  }

  lemma HeadLines()
    ensures AllOneLine(CONFIG_HEAD)
    ensures forall l | l in CONFIG_HEAD :: Other(l)
  {
    HeadLinesAreOneLine();
    assert Other(API_VERSION) by { OtherLine(API_VERSION); }
    assert Other("kind: KubeletConfiguration") by { OtherLine("kind: KubeletConfiguration"); }
    assert Other(DRIVER + "cgroupfs") by { OtherLine(DRIVER + "cgroupfs"); }
    assert Other(RUNTIME) by { OtherLine(RUNTIME); }
  }

  lemma AuthenticationLines()
    ensures AllOneLine(CONFIG_AUTHENTICATION)
  {
  }

  lemma TailLines()
    ensures AllOneLine(CONFIG_TAIL) && !(ITEM <= CONFIG_TAIL[0])
  {
    AuthenticationLines();
    assert OneLine(CLIENT_CA + CLUSTER_CA_PATH);
    assert CONFIG_TAIL[0][0] == 'r';
  }

  lemma DomainIsOneLine(p: Parsers, intent: NodeIntent)
    requires Validated(p, intent)
    ensures OneLine(intent.clusterDomain)
  {
    assert forall i | 0 <= i < |intent.clusterDomain| :: DomainChar(intent.clusterDomain[i]);
  }

  lemma {:induction false} DnsLinesAreOneLine(p: Parsers, dns: seq<string>)
    requires p.Sound() && forall i | 0 <= i < |dns| :: p.isIp(dns[i])
    ensures AllOneLine(ItemLines(dns))
  {
    forall l | l in ItemLines(dns) ensures OneLine(l) {
      var i :| 0 <= i < |dns| && ItemLines(dns)[i] == l;
      assert AddressText(dns[i]);
      assert l == ITEM + dns[i];
    }
  }

  lemma ConfigLines(p: Parsers, intent: NodeIntent)
    requires p.Sound() && Validated(p, intent)
    ensures Lines(KubeletConfig(intent))
         == CONFIG_HEAD + [DOMAIN + intent.clusterDomain] + [DNS] + ItemLines(intent.clusterDns) + CONFIG_TAIL
  {
    var lines := CONFIG_HEAD + [DOMAIN + intent.clusterDomain] + [DNS] + ItemLines(intent.clusterDns) + CONFIG_TAIL;
    HeadLines();
    TailLines();
    DomainIsOneLine(p, intent);
    DnsLinesAreOneLine(p, intent.clusterDns);
    assert AllOneLine(lines) by {
      forall l | l in lines ensures OneLine(l) {
        if l !in CONFIG_HEAD && l !in CONFIG_TAIL && l !in ItemLines(intent.clusterDns) {
          assert l == DOMAIN + intent.clusterDomain || l == DNS;
        }
      }
    }
    LinesOfJoin(lines, "");
    assert Join(lines) + "" == Join(lines);
  }

  lemma Regrouped(a: seq<string>, b: seq<string>, c: seq<string>, d: seq<string>)
    ensures a + b + c + d == a + (b + c + d)
  {
  }

  lemma DomainComesBack(intent: NodeIntent, below: seq<string>)
    ensures Field(CONFIG_HEAD + [DOMAIN + intent.clusterDomain] + below, DOMAIN) == Some(intent.clusterDomain)
  {
    HeadLines();
    FieldAfter(CONFIG_HEAD, DOMAIN, intent.clusterDomain, below);
  }

  lemma DnsComesBack(intent: NodeIntent)
    ensures ListUnder(CONFIG_HEAD + [DOMAIN + intent.clusterDomain] + [DNS] + ItemLines(intent.clusterDns) + CONFIG_TAIL, DNS)
         == intent.clusterDns
  {
    HeadLines();
    TailLines();
    assert DOMAIN + intent.clusterDomain != DNS by {
      assert (DOMAIN + intent.clusterDomain)[8] == 'o' && DNS[8] == 'N';
    }
    ListAfter(CONFIG_HEAD + [DOMAIN + intent.clusterDomain], DNS, intent.clusterDns, CONFIG_TAIL);
  }

  /** The line reader gets the domain and the DNS list, in order, back from the rendering of
      every validated intent. */
  lemma KubeletConfigRoundTrip(p: Parsers, intent: NodeIntent)
    requires p.Sound() && Validated(p, intent)
    ensures ReadDomain(KubeletConfig(intent)) == Some(intent.clusterDomain)
    ensures ReadDns(KubeletConfig(intent)) == intent.clusterDns
  {
    ConfigLines(p, intent);
    DnsComesBack(intent);
    var above, list := CONFIG_HEAD + [DOMAIN + intent.clusterDomain], ItemLines(intent.clusterDns);
    DomainComesBack(intent, [DNS] + list + CONFIG_TAIL);
    Regrouped(above, [DNS], list, CONFIG_TAIL);
  }

  lemma Unlike(line: string, key: string, k: nat)
    requires k < |line| && k < |key| && line[k] != key[k]
    ensures !(key <= line) && line != key
  {
  }

  const CONFIG_ABOVE_CA: seq<string> := CONFIG_AUTHENTICATION + ["  x509:"]
  const CONFIG_BELOW_CA: seq<string> := [AUTHORIZATION, "  mode: Webhook"]

  lemma ConstantLinesHaveNoCa()
    ensures forall l | l in CONFIG_HEAD || l in CONFIG_ABOVE_CA :: !(CLIENT_CA <= l)
  {
    forall l | l in CONFIG_HEAD ensures !(CLIENT_CA <= l) { Unlike(l, CLIENT_CA, 0); }
    Unlike("    enabled: false", CLIENT_CA, 4);
    Unlike("    enabled: true", CLIENT_CA, 4);
    Unlike(ANONYMOUS, CLIENT_CA, 2);
    Unlike(WEBHOOK, CLIENT_CA, 2);
    Unlike("  x509:", CLIENT_CA, 2);
  }

  lemma ItemsHaveNoCa(values: seq<string>)
    ensures forall l | l in ItemLines(values) :: !(CLIENT_CA <= l)
  {
    forall l | l in ItemLines(values) ensures !(CLIENT_CA <= l) {
      var i :| 0 <= i < |values| && ItemLines(values)[i] == l;
      Unlike(ITEM + values[i], CLIENT_CA, 2);
    }
  }

  /** The configuration names the cluster CA file, whatever the intent. */
  lemma KubeletConfigNamesCa(p: Parsers, intent: NodeIntent)
    requires p.Sound() && Validated(p, intent)
    ensures Field(Lines(KubeletConfig(intent)), CLIENT_CA) == Some(CLUSTER_CA_PATH)
  {
    var domain, list := DOMAIN + intent.clusterDomain, ItemLines(intent.clusterDns);
    var above := CONFIG_HEAD + [domain] + [DNS] + list + CONFIG_ABOVE_CA;
    ConstantLinesHaveNoCa();
    ItemsHaveNoCa(intent.clusterDns);
    Unlike(domain, CLIENT_CA, 0);
    Unlike(DNS, CLIENT_CA, 0);
    FieldAfter(above, CLIENT_CA, CLUSTER_CA_PATH, CONFIG_BELOW_CA);
    ConfigLines(p, intent);
    assert CONFIG_TAIL == CONFIG_ABOVE_CA + ([CLIENT_CA + CLUSTER_CA_PATH] + CONFIG_BELOW_CA);
    AppendedTwice(CONFIG_HEAD + [domain] + [DNS] + list, CONFIG_ABOVE_CA, [CLIENT_CA + CLUSTER_CA_PATH], CONFIG_BELOW_CA);
  }

  lemma AppendedTwice(a: seq<string>, b: seq<string>, c: seq<string>, d: seq<string>)
    ensures a + (b + (c + d)) == a + b + c + d
  {
  }

  // ---- the settings that no intent changes ----

  /** A line that starts like none of these settings. */
  ghost predicate NoSetting(l: string) {
    !(ROTATE <= l) && l != ANONYMOUS && l != WEBHOOK && l != AUTHORIZATION
  }

  lemma StartsOtherwise(l: string)
    requires |l| > 2
    requires if l[0] == ' ' then l[2] == '-' else l[0] == 'k' || l[0] == 'c' || (l[0] == 'a' && l[1] == 'p')
    ensures NoSetting(l)
  {
    Unlike(l, ROTATE, 0);
    Unlike(l, ANONYMOUS, if l[0] == ' ' then 2 else 0);
    Unlike(l, WEBHOOK, if l[0] == ' ' then 2 else 0);
    Unlike(l, AUTHORIZATION, if l[0] == 'a' then 1 else 0);
  }

  lemma HeadHasNoSetting()
    ensures forall l | l in CONFIG_HEAD :: NoSetting(l)
  {
    StartsOtherwise(API_VERSION);
    StartsOtherwise("kind: KubeletConfiguration");
    StartsOtherwise(DRIVER + "cgroupfs");
    StartsOtherwise(RUNTIME);
  }

  lemma AboveTail(intent: NodeIntent) returns (above: seq<string>)
    ensures above == CONFIG_HEAD + [DOMAIN + intent.clusterDomain] + [DNS] + ItemLines(intent.clusterDns)
    ensures forall l | l in above :: NoSetting(l)
  {
    above := CONFIG_HEAD + [DOMAIN + intent.clusterDomain] + [DNS] + ItemLines(intent.clusterDns);
    HeadHasNoSetting();
    StartsOtherwise(DOMAIN + intent.clusterDomain);
    StartsOtherwise(DNS);
    forall l | l in ItemLines(intent.clusterDns) ensures NoSetting(l) {
      var i :| 0 <= i < |intent.clusterDns| && ItemLines(intent.clusterDns)[i] == l;
      StartsOtherwise(ITEM + intent.clusterDns[i]);
    }
  }

  lemma FieldInside(above: seq<string>, t: seq<string>, more: seq<string>, k: nat, key: string, value: string)
    requires k < |t| && t[k] == key + value
    requires (forall l | l in above :: !(key <= l)) && (forall l | l in t[..k] :: !(key <= l))
    ensures Field(above + t + more, key) == Some(value)
  {
    FieldAfter(above + t[..k], key, value, t[k + 1..] + more);
    assert t == t[..k] + [key + value] + t[k + 1..];
    assert above + t[..k] + [key + value] + (t[k + 1..] + more) == above + t + more;
  }

  lemma BelowInside(above: seq<string>, t: seq<string>, more: seq<string>, k: nat, head: string, next: string)
    requires k + 1 < |t| && t[k] == head && t[k + 1] == next && head !in above && head !in t[..k]
    ensures Below(above + t + more, head) == Some(next)
  {
    BelowAfter(above + t[..k], head, next, t[k + 2..] + more);
    assert t == t[..k] + [head] + [next] + t[k + 2..];
    assert above + t[..k] + [head] + [next] + (t[k + 2..] + more) == above + t + more;
  }

  lemma TailHeadsDiffer()
    ensures ANONYMOUS !in CONFIG_TAIL[..2] && WEBHOOK !in CONFIG_TAIL[..4] && AUTHORIZATION !in CONFIG_TAIL[..8]
  {
    var t := CONFIG_TAIL;
    Unlike(t[0], ANONYMOUS, 0);
    Unlike(t[1], ANONYMOUS, 0);
    Unlike(t[0], WEBHOOK, 0);
    Unlike(t[1], WEBHOOK, 0);
    Unlike(ANONYMOUS, WEBHOOK, 2);
    Unlike(t[3], WEBHOOK, 2);
    Unlike(t[1], AUTHORIZATION, 4);
    forall l | l in t[..8] && l != t[1] ensures l != AUTHORIZATION { Unlike(l, AUTHORIZATION, 0); }
  }

  lemma TailSettings(above: seq<string>)
    requires forall l | l in above :: NoSetting(l)
    ensures var lines := above + CONFIG_TAIL;
            && Field(lines, ROTATE) == Some("true")
            && Below(lines, ANONYMOUS) == Some("    enabled: false")
            && Below(lines, WEBHOOK) == Some("    enabled: true")
            && Below(lines, AUTHORIZATION) == Some("  mode: Webhook")
  {
    TailHeadsDiffer();
    FieldInside(above, CONFIG_TAIL, [], 0, ROTATE, "true");
    BelowInside(above, CONFIG_TAIL, [], 2, ANONYMOUS, "    enabled: false");
    BelowInside(above, CONFIG_TAIL, [], 4, WEBHOOK, "    enabled: true");
    BelowInside(above, CONFIG_TAIL, [], 8, AUTHORIZATION, "  mode: Webhook");
    assert above + CONFIG_TAIL + [] == above + CONFIG_TAIL;
  }

  lemma HeadSettings(more: seq<string>)
    ensures Field(CONFIG_HEAD + more, DRIVER) == Some("cgroupfs")
    ensures Field(CONFIG_HEAD + more, ENDPOINT) == Some(RUNTIME_SOCKET)
  {
    var h := CONFIG_HEAD;
    Unlike(h[0], DRIVER, 0);
    Unlike(h[1], DRIVER, 0);
    FieldAfter(h[..2], DRIVER, "cgroupfs", h[3..] + more);
    assert h[..2] + [DRIVER + "cgroupfs"] + (h[3..] + more) == h + more;
    Unlike(h[0], ENDPOINT, 0);
    Unlike(h[1], ENDPOINT, 0);
    Unlike(h[2], ENDPOINT, 1);
    FieldAfter(h[..3], ENDPOINT, RUNTIME_SOCKET, more);
    assert h[..3] + [ENDPOINT + RUNTIME_SOCKET] + more == h + more;
  }

  /** Every rendering tells kubelet to let nobody in unauthenticated, to have tokens and
      requests checked by the API server, and to rotate its certificate; and it names the
      driver and the runtime socket of this system. */
  lemma KubeletConfigSettings(p: Parsers, intent: NodeIntent)
    requires p.Sound() && Validated(p, intent)
    ensures var lines := Lines(KubeletConfig(intent));
            && Below(lines, ANONYMOUS) == Some("    enabled: false")
            && Below(lines, WEBHOOK) == Some("    enabled: true")
            && Below(lines, AUTHORIZATION) == Some("  mode: Webhook")
            && Field(lines, ROTATE) == Some("true")
            && Field(lines, DRIVER) == Some("cgroupfs")
            && Field(lines, ENDPOINT) == Some(RUNTIME_SOCKET)
  {
    var above := AboveTail(intent);
    ConfigLines(p, intent);
    TailSettings(above);
    HeadSettings([DOMAIN + intent.clusterDomain] + [DNS] + ItemLines(intent.clusterDns) + CONFIG_TAIL);
    AppendedToHead(CONFIG_HEAD, [DOMAIN + intent.clusterDomain], [DNS], ItemLines(intent.clusterDns), CONFIG_TAIL);
  }

  lemma AppendedToHead(a: seq<string>, b: seq<string>, c: seq<string>, d: seq<string>, e: seq<string>)
    ensures a + b + c + d + e == a + (b + c + d + e)
  {
  }

  /** So two validated intents with the same rendering agree on both. */
  lemma KubeletConfigInjective(p: Parsers, a: NodeIntent, b: NodeIntent)
    requires p.Sound() && Validated(p, a) && Validated(p, b)
    requires KubeletConfig(a) == KubeletConfig(b)
    ensures a.clusterDomain == b.clusterDomain && a.clusterDns == b.clusterDns
  {
    KubeletConfigRoundTrip(p, a);
    KubeletConfigRoundTrip(p, b);
  }

  // ---- bootstrap-kubeconfig ----

  const SERVER := "    server: "
  const TOKEN := "    token: "

  const CLUSTERS := "clusters:"
  const CONTEXTS := "contexts:"
  const USERS := "users:"
  const CLUSTER := "    cluster: "
  const USER := "    user: "
  const CURRENT := "current-context: "

  const AUTHORITY := "    certificate-authority: "
  const CA_LINE := AUTHORITY + CLUSTER_CA_PATH

  const KUBECONFIG_HEAD: seq<string> := [
    "apiVersion: v1", "kind: Config", CLUSTERS, "- name: default", "  cluster:", CA_LINE]

  const KUBECONFIG_MIDDLE: seq<string> := [
    CONTEXTS, "- name: default", "  context:", CLUSTER + "default", USER + "kubelet-bootstrap",
    CURRENT + "default", USERS, "- name: kubelet-bootstrap", "  user:"]

  /** `render_bootstrap_kubeconfig` */
  function BootstrapKubeconfig(intent: NodeIntent): string {
    Join(KUBECONFIG_HEAD + [SERVER + intent.apiServer] + KUBECONFIG_MIDDLE + [TOKEN + intent.bootstrapToken])
  }

  function ReadServer(text: string): Option<string> {
    Field(Lines(text), SERVER)
  }

  function ReadToken(text: string): Option<string> {
    Field(Lines(text), TOKEN)
  }

  lemma CaIsOneLine()
    ensures OneLine(CA_LINE)
  {
  }

  lemma HeadIsOneLine()
    ensures AllOneLine(KUBECONFIG_HEAD)
  {
    CaIsOneLine();
  }

  lemma MiddleIsOneLine()
    ensures AllOneLine(KUBECONFIG_MIDDLE)
  {
    assert OneLine(USER + "kubelet-bootstrap") && OneLine("- name: kubelet-bootstrap") && OneLine(CURRENT + "default") && OneLine(CLUSTER + "default");
  }

  lemma OtherKey(line: string, key: string)
    requires |line| > 4 && |key| > 4 && (line[0] != key[0] || line[4] != key[4])
    ensures !(key <= line)
  {
  }

  lemma HeadHasNoServer()
    ensures forall l | l in KUBECONFIG_HEAD :: !(SERVER <= l)
  {
    OtherKey("apiVersion: v1", SERVER);
    OtherKey("kind: Config", SERVER);
    OtherKey(CLUSTERS, SERVER);
    OtherKey("- name: default", SERVER);
    OtherKey("  cluster:", SERVER);
    OtherKey(CA_LINE, SERVER);
  }

  lemma HeadHasNoToken()
    ensures forall l | l in KUBECONFIG_HEAD :: !(TOKEN <= l)
  {
    OtherKey("apiVersion: v1", TOKEN);
    OtherKey("kind: Config", TOKEN);
    OtherKey(CLUSTERS, TOKEN);
    OtherKey("- name: default", TOKEN);
    OtherKey("  cluster:", TOKEN);
    OtherKey(CA_LINE, TOKEN);
  }

  lemma MiddleHasNoToken()
    ensures forall l | l in KUBECONFIG_MIDDLE :: !(TOKEN <= l)
  {
    OtherKey(CONTEXTS, TOKEN);
    OtherKey("- name: default", TOKEN);
    OtherKey("  context:", TOKEN);
    OtherKey(CLUSTER + "default", TOKEN);
    OtherKey(USER + "kubelet-bootstrap", TOKEN);
    OtherKey(CURRENT + "default", TOKEN);
    OtherKey(USERS, TOKEN);
    OtherKey("- name: kubelet-bootstrap", TOKEN);
    OtherKey("  user:", TOKEN);
  }

  function UpToNewline(s: string): string {
    var end := FindChar(s, '\n');
    if end.None? then s else s[..end.value]
  }

  lemma CutAtNewline(key: string, a: string, b: string, rest: string)
    requires OneLine(key) && OneLine(a)
    ensures Lines(key + (a + "\n" + b) + "\n" + rest) == [key + a] + Lines(b + "\n" + rest)
  {
    FirstLine(key + a, b + "\n" + rest);
    assert key + (a + "\n" + b) + "\n" + rest == key + a + "\n" + (b + "\n" + rest);
  }

  lemma LineUpToNewline(key: string, value: string, rest: string) returns (more: seq<string>)
    requires OneLine(key)
    ensures Lines(key + value + "\n" + rest) == [key + UpToNewline(value)] + more
  {
    var end := FindChar(value, '\n');
    if end.None? {
      FirstLine(key + value, rest);
      more := Lines(rest);
    } else {
      var a, b := value[..end.value], value[end.value + 1..];
      assert value == a + "\n" + b;
      CutAtNewline(key, a, b, rest);
      more := Lines(b + "\n" + rest);
    }
  }

  lemma KubeconfigAsText(intent: NodeIntent, below: seq<string>)
    requires below == KUBECONFIG_MIDDLE + [TOKEN + intent.bootstrapToken]
    ensures BootstrapKubeconfig(intent) == Join(KUBECONFIG_HEAD) + (SERVER + intent.apiServer + "\n" + Join(below))
  {
    var server := [SERVER + intent.apiServer];
    JoinConcat(KUBECONFIG_HEAD, server + below);
    JoinConcat(server, below);
    assert Join(server) == SERVER + intent.apiServer + "\n" + Join([]) == SERVER + intent.apiServer + "\n";
    assert KUBECONFIG_HEAD + (server + below) == KUBECONFIG_HEAD + server + KUBECONFIG_MIDDLE + [TOKEN + intent.bootstrapToken];
  }

  /** Whatever the intent, the server is read back up to its first newline. */
  lemma KubeconfigServer(intent: NodeIntent)
    ensures ReadServer(BootstrapKubeconfig(intent)) == Some(UpToNewline(intent.apiServer))
  {
    var below := KUBECONFIG_MIDDLE + [TOKEN + intent.bootstrapToken];
    var text := SERVER + intent.apiServer + "\n" + Join(below);
    KubeconfigAsText(intent, below);
    HeadIsOneLine();
    LinesOfJoin(KUBECONFIG_HEAD, text);
    var more := LineUpToNewline(SERVER, intent.apiServer, Join(below));
    FieldBelowHead(UpToNewline(intent.apiServer), more);
  }

  const KUBECONFIG_ABOVE_CA: seq<string> := [
    "apiVersion: v1", "kind: Config", CLUSTERS, "- name: default", "  cluster:"]

  lemma AuthorityInHead(more: seq<string>)
    ensures Field(KUBECONFIG_HEAD + more, AUTHORITY) == Some(CLUSTER_CA_PATH)
  {
    forall l | l in KUBECONFIG_ABOVE_CA ensures !(AUTHORITY <= l) {
      Unlike(l, AUTHORITY, 2);
    }
    FieldAfter(KUBECONFIG_ABOVE_CA, AUTHORITY, CLUSTER_CA_PATH, more);
    assert KUBECONFIG_HEAD == KUBECONFIG_ABOVE_CA + [CA_LINE];
  }

  /** So does the kubeconfig. */
  lemma KubeconfigNamesCa(intent: NodeIntent)
    ensures Field(Lines(BootstrapKubeconfig(intent)), AUTHORITY) == Some(CLUSTER_CA_PATH)
  {
    var below := KUBECONFIG_MIDDLE + [TOKEN + intent.bootstrapToken];
    var text := SERVER + intent.apiServer + "\n" + Join(below);
    KubeconfigAsText(intent, below);
    HeadIsOneLine();
    LinesOfJoin(KUBECONFIG_HEAD, text);
    AuthorityInHead(Lines(text));
  }

  lemma FieldBelowHead(value: string, more: seq<string>)
    ensures Field(KUBECONFIG_HEAD + ([SERVER + value] + more), SERVER) == Some(value)
  {
    HeadHasNoServer();
    FieldAfter(KUBECONFIG_HEAD, SERVER, value, more);
    assert KUBECONFIG_HEAD + ([SERVER + value] + more) == KUBECONFIG_HEAD + [SERVER + value] + more;
  }

  lemma TokenIsOneLine(token: string)
    requires ValidBootstrapToken(token)
    ensures OneLine(token)
  {
    TokenLanguage(token);
    forall i | 0 <= i < |token| ensures token[i] != '\n' {
      if i != 6 { assert LowerAlnum(token[i]); }
    }
  }

  lemma KubeconfigToken(intent: NodeIntent)
    requires OneLine(intent.apiServer) && ValidBootstrapToken(intent.bootstrapToken)
    ensures ReadToken(BootstrapKubeconfig(intent)) == Some(intent.bootstrapToken)
  {
    var server := SERVER + intent.apiServer;
    var above := KUBECONFIG_HEAD + [server] + KUBECONFIG_MIDDLE;
    var lines := above + [TOKEN + intent.bootstrapToken];
    TokenIsOneLine(intent.bootstrapToken);
    KubeconfigLines(intent);
    HeadHasNoToken();
    MiddleHasNoToken();
    OtherKey(server, TOKEN);
    FieldAfter(above, TOKEN, intent.bootstrapToken, []);
    assert lines == above + [TOKEN + intent.bootstrapToken] + [];
  }

  lemma ClusterInHead(more: seq<string>)
    ensures Below(KUBECONFIG_HEAD + more, CLUSTERS) == Some("- name: default")
  {
    var h := KUBECONFIG_HEAD;
    Unlike(h[0], CLUSTERS, 0);
    Unlike(h[1], CLUSTERS, 0);
    BelowAfter(h[..2], h[2], h[3], h[4..] + more);
    assert h[..2] + [h[2]] + [h[3]] + (h[4..] + more) == h + more;
  }

  /** None of the lines looked for below. */
  ghost predicate NoLink(l: string) {
    l != CONTEXTS && l != USERS && !(CURRENT <= l) && !(CLUSTER <= l) && !(USER <= l)
  }

  /** Above all names: by the first letters. */
  lemma StartsNoLink(l: string)
    requires |l| > 5
    requires l[0] != 'u' && (l[0] == 'c' ==> l[1] == 'l')
    requires l[0] == ' ' ==> l[2] != ' ' || l[4] == 's' || (l[4] == 'c' && l[5] == 'e')
    ensures NoLink(l)
  {
    Unlike(l, CONTEXTS, if l[0] == 'c' then 1 else 0);
    Unlike(l, USERS, 0);
    Unlike(l, CURRENT, if l[0] == 'c' then 1 else 0);
    Unlike(l, CLUSTER, if l[0] != ' ' then 0 else if l[2] != ' ' then 2 else if l[4] == 's' then 4 else 5);
    Unlike(l, USER, if l[0] != ' ' then 0 else if l[2] != ' ' then 2 else 4);
  }

  lemma HeadHasNoLink(server: string)
    ensures forall l | l in KUBECONFIG_HEAD + [SERVER + server] :: NoLink(l)
  {
    forall l | l in KUBECONFIG_HEAD ensures NoLink(l) { StartsNoLink(l); }
    StartsNoLink(SERVER + server);
  }

  lemma LinksInMiddle(above: seq<string>, more: seq<string>)
    requires forall l | l in above :: NoLink(l)
    ensures var lines := above + KUBECONFIG_MIDDLE + more;
            && Field(lines, CURRENT) == Some("default") && Below(lines, CONTEXTS) == Some("- name: default")
            && Field(lines, CLUSTER) == Some("default")
            && Field(lines, USER) == Some("kubelet-bootstrap") && Below(lines, USERS) == Some("- name: kubelet-bootstrap")
  {
    MiddleDiffers();
    BelowInside(above, KUBECONFIG_MIDDLE, more, 0, CONTEXTS, "- name: default");
    FieldInside(above, KUBECONFIG_MIDDLE, more, 3, CLUSTER, "default");
    FieldInside(above, KUBECONFIG_MIDDLE, more, 4, USER, "kubelet-bootstrap");
    FieldInside(above, KUBECONFIG_MIDDLE, more, 5, CURRENT, "default");
    BelowInside(above, KUBECONFIG_MIDDLE, more, 6, USERS, "- name: kubelet-bootstrap");
  }

  lemma MiddleDiffers()
    ensures var m := KUBECONFIG_MIDDLE;
            && (forall l | l in m[..3] :: !(CLUSTER <= l)) && (forall l | l in m[..4] :: !(USER <= l))
            && (forall l | l in m[..5] :: !(CURRENT <= l)) && USERS !in m[..6]
  {
    var m := KUBECONFIG_MIDDLE;
    forall l | l in m[..3] ensures !(CLUSTER <= l) { Unlike(l, CLUSTER, if l[0] == ' ' then 2 else 0); }
    forall l | l in m[..4] ensures !(USER <= l) { Unlike(l, USER, if l[0] != ' ' then 0 else if l[2] != ' ' then 2 else 4); }
    forall l | l in m[..5] ensures !(CURRENT <= l) { Unlike(l, CURRENT, if l[0] == 'c' then 1 else 0); }
    forall l | l in m[..6] ensures l != USERS { Unlike(l, USERS, 0); }
  }

  lemma KubeconfigLines(intent: NodeIntent)
    requires OneLine(intent.apiServer) && OneLine(intent.bootstrapToken)
    ensures Lines(BootstrapKubeconfig(intent))
         == KUBECONFIG_HEAD + [SERVER + intent.apiServer] + KUBECONFIG_MIDDLE + [TOKEN + intent.bootstrapToken]
  {
    var lines := KUBECONFIG_HEAD + [SERVER + intent.apiServer] + KUBECONFIG_MIDDLE + [TOKEN + intent.bootstrapToken];
    HeadIsOneLine();
    MiddleIsOneLine();
    LinesOfJoin(lines, "");
    assert Join(lines) + "" == Join(lines) && lines + Lines("") == lines;
  }

  /** The current context is the one there is, and the cluster and the user it names are the
      ones with the server and the token. */
  lemma KubeconfigLinks(intent: NodeIntent) returns (context: string, cluster: string, user: string)
    requires OneLine(intent.apiServer) && ValidBootstrapToken(intent.bootstrapToken)
    ensures var lines := Lines(BootstrapKubeconfig(intent));
            && Field(lines, CURRENT) == Some(context) && Below(lines, CONTEXTS) == Some("- name: " + context)
            && Field(lines, CLUSTER) == Some(cluster) && Below(lines, CLUSTERS) == Some("- name: " + cluster)
            && Field(lines, USER) == Some(user) && Below(lines, USERS) == Some("- name: " + user)
  {
    context, cluster, user := "default", "default", "kubelet-bootstrap";
    var server, token := [SERVER + intent.apiServer], [TOKEN + intent.bootstrapToken];
    TokenIsOneLine(intent.bootstrapToken);
    KubeconfigLines(intent);
    HeadHasNoLink(intent.apiServer);
    LinksInMiddle(KUBECONFIG_HEAD + server, token);
    ClusterInHead(server + KUBECONFIG_MIDDLE + token);
    Regrouped(KUBECONFIG_HEAD, server, KUBECONFIG_MIDDLE, token);
    NamesMatch();
  }

  lemma NamesMatch()
    ensures "- name: " + "default" == "- name: default" && "- name: " + "kubelet-bootstrap" == "- name: kubelet-bootstrap"
  {
  }

  /** Server and token of a validated intent come back exactly when the server has no
      newline. Validation does not see to that. */
  lemma KubeconfigRoundTrip(p: Parsers, intent: NodeIntent)
    requires Validated(p, intent)
    ensures (ReadServer(BootstrapKubeconfig(intent)) == Some(intent.apiServer)
             && ReadToken(BootstrapKubeconfig(intent)) == Some(intent.bootstrapToken))
            <==> OneLine(intent.apiServer)
  {
    KubeconfigServer(intent);
    if OneLine(intent.apiServer) {
      KubeconfigToken(intent);
      assert FindChar(intent.apiServer, '\n').None?;
    } else {
      assert |UpToNewline(intent.apiServer)| < |intent.apiServer|;
    }
  }

  /** A newline after the port's colon is accepted, so some validated intents do not come back. */
  lemma NewlineIsAccepted(p: Parsers, intent: NodeIntent) returns (bad: NodeIntent)
    requires Validated(p, intent)
    ensures Validated(p, bad) && !OneLine(bad.apiServer) && bad == intent.(apiServer := bad.apiServer)
    ensures ReadServer(BootstrapKubeconfig(bad)) != Some(bad.apiServer)
  {
    ApiServerLanguage(p, intent.apiServer);
    var host, tail :| ServerShape(p, intent.apiServer, host, tail);
    var server := HTTPS + "[" + host + "]" + ":\n";
    AcceptedServer(p, host, ":\n");
    bad := intent.(apiServer := server);
    assert server[|server| - 1] == '\n';
    KubeconfigServer(bad);
    assert |UpToNewline(server)| < |server|;
  }
}
