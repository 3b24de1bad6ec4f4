/**
 * The classification that `run_env` ends up holding, as a pure function of
 * the host: the boolean capability flags, the `details` versions and the
 * canonical `name` chosen by a first-match-wins precedence list. The
 * imperative detector in module `RunEnvObject` is proved to build exactly
 * this value.
 */
module Classifier {
  import opened JsStrings
  import opened Host

  /** The closed set of canonical environment names. */
  datatype EnvName =
    | ElectronMain | ElectronRenderer | EdgeRuntime | CloudflareWorker
    | ServiceWorker | Worklet | WebWorker | ReactNative | Browser
    | Bun | Deno | NodeWorker | Node | NwJs | Shell | Unknown

  /** The string stored in `run_env.name` for each canonical name. */
  function Label(n: EnvName): string {
    match n
    case ElectronMain => "electron-main"
    case ElectronRenderer => "electron-renderer"
    case EdgeRuntime => "edge-runtime"
    case CloudflareWorker => "cloudflare-worker"
    case ServiceWorker => "service-worker"
    case Worklet => "worklet"
    case WebWorker => "web-worker"
    case ReactNative => "react-native"
    case Browser => "browser"
    case Bun => "bun"
    case Deno => "deno"
    case NodeWorker => "node-worker"
    case Node => "node"
    case NwJs => "nwjs"
    case Shell => "shell"
    case Unknown => "unknown"
  }

  /** `run_env.details`: version strings, `None` standing for `null`. */
  datatype Details = Details(
    node: Option<string>,
    bun: Option<string>,
    deno: Option<string>,
    electron: Option<string>,
    edge: Option<string>)

  /** The page-context flags: `window`, `web`, `react_native`. */
  datatype PageFlags = PageFlags(window: bool, web: bool, reactNative: bool)

  /** The browser-worker flags: `worker`, `web_worker`, `service_worker`, `worklet`. */
  datatype WorkerFlags = WorkerFlags(worker: bool, webWorker: bool, serviceWorker: bool, worklet: bool)

  /** The server-side runtime flags: `nodejs`, `bun`, `deno`, `nwjs`. */
  datatype RuntimeFlags = RuntimeFlags(nodejs: bool, bun: bool, deno: bool, nwjs: bool)

  /** The Electron flags: `electron`, `electron_main`, `electron_renderer`. */
  datatype ElectronFlags = ElectronFlags(electron: bool, electronMain: bool, electronRenderer: bool)

  /** The Node thread flags: `node_main`, `node_worker`. */
  datatype ThreadFlags = ThreadFlags(nodeMain: bool, nodeWorker: bool)

  /** The edge-platform flags: `edge_runtime`, `cloudflare_worker`. */
  datatype EdgeFlags = EdgeFlags(edgeRuntime: bool, cloudflareWorker: bool)

  /**
   * The `run_env` record. Its nineteen flags are kept in groups, one per
   * family of detection blocks, and each flag is readable under its own
   * name (`e.web`, `e.nodeWorker`, ...).
   */
  datatype Env = Env(
    pageFlags: PageFlags,
    workerFlags: WorkerFlags,
    runtimeFlags: RuntimeFlags,
    electronFlags: ElectronFlags,
    threadFlags: ThreadFlags,
    edgeFlags: EdgeFlags,
    shell: bool,
    details: Details,
    name: EnvName)
  {
    const window: bool := pageFlags.window
    const web: bool := pageFlags.web
    const reactNative: bool := pageFlags.reactNative
    const worker: bool := workerFlags.worker
    const webWorker: bool := workerFlags.webWorker
    const serviceWorker: bool := workerFlags.serviceWorker
    const worklet: bool := workerFlags.worklet
    const nodejs: bool := runtimeFlags.nodejs
    const bun: bool := runtimeFlags.bun
    const deno: bool := runtimeFlags.deno
    const nwjs: bool := runtimeFlags.nwjs
    const electron: bool := electronFlags.electron
    const electronMain: bool := electronFlags.electronMain
    const electronRenderer: bool := electronFlags.electronRenderer
    const nodeMain: bool := threadFlags.nodeMain
    const nodeWorker: bool := threadFlags.nodeWorker
    const edgeRuntime: bool := edgeFlags.edgeRuntime
    const cloudflareWorker: bool := edgeFlags.cloudflareWorker
  }

  /** One step of the naming chain: if `holds`, the name is `named`. */
  datatype Rule = Rule(holds: bool, named: EnvName)

  /** The naming chain of `chooseName`, in the order its branches are tested. */
  function Precedence(e: Env): seq<Rule> {
    [ Rule(e.electron, if e.electronMain then ElectronMain else ElectronRenderer),
      Rule(e.edgeRuntime, EdgeRuntime),
      Rule(e.cloudflareWorker, CloudflareWorker),
      Rule(e.serviceWorker, ServiceWorker),
      Rule(e.worklet, Worklet),
      Rule(e.webWorker, WebWorker),
      Rule(e.reactNative, ReactNative),
      Rule(e.web, Browser),
      Rule(e.bun, Bun),
      Rule(e.deno, Deno),
      Rule(e.nodeWorker, NodeWorker),
      Rule(e.nodejs, Node),
      Rule(e.nwjs, NwJs),
      Rule(e.shell, Shell) ]
  }

  /** The label of the first rule that holds, or `fallback` when none does. */
  function FirstMatch(rules: seq<Rule>, fallback: EnvName): EnvName {
    FirstMatchFrom(rules, 0, fallback)
  }

  /** The walk down the rule table from rule `i` on. */
  function FirstMatchFrom(rules: seq<Rule>, i: nat, fallback: EnvName): EnvName
    decreases |rules| - i
  {
    if i >= |rules| then fallback
    else if rules[i].holds then rules[i].named
    else FirstMatchFrom(rules, i + 1, fallback)
  }

  /** One step of the walk: rule `i` names the result if it holds, and is skipped otherwise. */
  lemma FirstMatchFromStep(rules: seq<Rule>, i: nat, fallback: EnvName)
    requires i < |rules|
    ensures FirstMatchFrom(rules, i, fallback) == if rules[i].holds then rules[i].named else FirstMatchFrom(rules, i + 1, fallback)
  {
  }

  /** From rule `i` on, the walk names the first rule that holds, and `fallback` when none does. */
  lemma {:induction false} FirstMatchFromWins(rules: seq<Rule>, i: nat, fallback: EnvName)
    ensures forall k :: i <= k < |rules| && rules[k].holds && (forall j :: i <= j < k ==> !rules[j].holds) ==>
              FirstMatchFrom(rules, i, fallback) == rules[k].named
    ensures (forall k :: i <= k < |rules| ==> !rules[k].holds) ==> FirstMatchFrom(rules, i, fallback) == fallback
    decreases |rules| - i
  {
    if i < |rules| && !rules[i].holds {
      FirstMatchFromWins(rules, i + 1, fallback);
    }
  }

  /** First match wins: the chain names the first rule that holds, and `fallback` when none does. */
  lemma FirstMatchWins(rules: seq<Rule>, fallback: EnvName)
    ensures forall i :: 0 <= i < |rules| && rules[i].holds && (forall j :: 0 <= j < i ==> !rules[j].holds) ==>
              FirstMatch(rules, fallback) == rules[i].named
    ensures (forall i :: 0 <= i < |rules| ==> !rules[i].holds) ==> FirstMatch(rules, fallback) == fallback
  {
    FirstMatchFromWins(rules, 0, fallback);
  }

  /** When no rule is labelled `fallback`, the chain named `fallback` exactly when no rule holds. */
  lemma {:induction false} FallbackOnlyWhenNothingHolds(rules: seq<Rule>, fallback: EnvName)
    requires forall i :: 0 <= i < |rules| ==> rules[i].named != fallback
    ensures FirstMatch(rules, fallback) == fallback <==> forall i :: 0 <= i < |rules| ==> !rules[i].holds
  {
    FallbackFromOnlyWhenNothingHolds(rules, 0, fallback);
  }

  lemma {:induction false} FallbackFromOnlyWhenNothingHolds(rules: seq<Rule>, i: nat, fallback: EnvName)
    requires forall k :: i <= k < |rules| ==> rules[k].named != fallback
    ensures FirstMatchFrom(rules, i, fallback) == fallback <==> forall k :: i <= k < |rules| ==> !rules[k].holds
    decreases |rules| - i
  {
    if i < |rules| && !rules[i].holds {
      FallbackFromOnlyWhenNothingHolds(rules, i + 1, fallback);
    }
  }

  // ----- intermediate values of the detection code -----

  /** `hasSelf`: `typeof self === 'object'`. */
  predicate HasSelf(h: Host) {
    Completes(h, SelfProbe) && h.selfIsObject
  }

  /** `hasImportScripts`: `typeof importScripts === 'function'`. */
  predicate HasImportScripts(h: Host) {
    Completes(h, ImportScriptsProbe) && h.importScriptsIsFunction
  }

  /** `isNodeLike`: `process` is an object with a truthy `versions`. */
  predicate IsNodeLike(h: Host) {
    Completes(h, NodeLikeProbe) && h.process.Some? && h.process.value.versions.Some?
  }

  /** `pv`: `process.versions` once the Node/Electron/NW.js block has run, `null` otherwise. */
  function ProcessVersions(h: Host): Option<Versions> {
    if IsNodeLike(h) && Completes(h, VersionsProbe) then h.process.value.versions else None
  }

  /** `G.Bun && G.Bun.version` is truthy. */
  predicate BunGlobalVersioned(h: Host) {
    h.bun.Some? && Truthy(h.bun.value.version)
  }

  /** `process.versions.bun` is truthy. */
  predicate ProcessReportsBun(h: Host) {
    h.process.Some? && h.process.value.versions.Some? && Truthy(h.process.value.versions.value.bun)
  }

  /** `isMain`: what `worker_threads` reports, the main thread when it reports nothing. */
  predicate IsMainThread(h: Host) {
    match h.isMainThread
    case Some(b) => b
    case None => true
  }

  // ----- the flags, one function per assignment of the detection code -----

  /** `run_env.window`: `typeof window === 'object'`. */
  predicate WindowFlag(h: Host) {
    Completes(h, WindowProbe) && h.windowIsObject
  }

  /** `run_env.web`: `window` and `document` are objects. */
  predicate WebFlag(h: Host) {
    Completes(h, WebProbe) && h.windowIsObject && h.documentIsObject
  }

  /** `navigator` is an object whose `product` is `'ReactNative'`. */
  predicate NavigatorIsReactNative(h: Host) {
    h.navigator.Some? && h.navigator.value.product == Some("ReactNative")
  }

  /** `run_env.react_native`: `navigator.product === 'ReactNative'`. */
  predicate ReactNativeFlag(h: Host) {
    Completes(h, ReactNativeProbe) && NavigatorIsReactNative(h)
  }

  /** `self instanceof WorkletGlobalScope` when that constructor is defined, false otherwise. */
  predicate SelfIsWorklet(h: Host) {
    match h.workletScope
    case Some(isInstance) => isInstance
    case None => false
  }

  /** `run_env.worklet`. */
  predicate WorkletFlag(h: Host) {
    Completes(h, WorkletProbe) && SelfIsWorklet(h)
  }

  /** `run_env.service_worker`: `self` without `Window`, with `skipWaiting` and `clients`. */
  predicate ServiceWorkerFlag(h: Host) {
    Completes(h, WorkerProbe) && HasSelf(h) && !h.windowConstructorDefined
    && h.skipWaitingIsFunction && h.clientsIsObject
  }

  /** `run_env.web_worker`: `self` and `importScripts` without `Window`, unless `service_worker` was just set. */
  predicate WebWorkerFlag(h: Host, serviceWorker: bool) {
    Completes(h, WorkerProbe) && HasSelf(h) && HasImportScripts(h) && !h.windowConstructorDefined
    && !serviceWorker
  }

  /** `run_env.worker`: any of the service-worker, web-worker and worklet flags. */
  predicate WorkerFlag(h: Host, serviceWorker: bool, webWorker: bool, worklet: bool) {
    Completes(h, WorkerProbe) && (serviceWorker || webWorker || worklet)
  }

  /** `G.Deno && G.Deno.version` is truthy. */
  predicate DenoGlobalVersioned(h: Host) {
    h.deno.Some? && h.deno.value.version.Some?
  }

  /** `run_env.deno`: `G.Deno && G.Deno.version`. */
  predicate DenoFlag(h: Host) {
    Completes(h, DenoProbe) && DenoGlobalVersioned(h)
  }

  /** `run_env.bun`: the `Bun` global has a version, or `process.versions.bun` is set. */
  predicate BunFlag(h: Host) {
    Completes(h, BunProbe) && (BunGlobalVersioned(h) || ProcessReportsBun(h))
  }

  /** `run_env.electron`: `pv.electron`. */
  predicate ElectronFlag(pv: Option<Versions>) {
    pv.Some? && Truthy(pv.value.electron)
  }

  /** `run_env.nwjs`: `pv.nw`. */
  predicate NwjsFlag(pv: Option<Versions>) {
    pv.Some? && Truthy(pv.value.nw)
  }

  /** `run_env.nodejs`: `pv.node` without `pv.bun`. */
  predicate NodejsFlag(pv: Option<Versions>) {
    pv.Some? && Truthy(pv.value.node) && !Truthy(pv.value.bun)
  }

  /** `run_env.electron_renderer`: set only under Electron, to `typeof window === 'object'`. */
  predicate ElectronRendererFlag(h: Host, electron: bool) {
    electron && h.windowIsObject
  }

  /** `run_env.electron_main`: set only under Electron, to the negation of the renderer flag. */
  predicate ElectronMainFlag(h: Host, electron: bool) {
    electron && !h.windowIsObject
  }

  /** `run_env.node_main`: set only under Node, to `isMain`. */
  predicate NodeMainFlag(h: Host, nodejs: bool) {
    nodejs && IsMainThread(h)
  }

  /** `run_env.node_worker`: set only under Node: not the main thread and no browser-worker flag. */
  predicate NodeWorkerFlag(h: Host, nodejs: bool, webWorker: bool, serviceWorker: bool, worklet: bool) {
    nodejs && !IsMainThread(h) && !webWorker && !serviceWorker && !worklet
  }

  /** `G.EdgeRuntime` is the string `'edge-runtime'`. */
  predicate IsEdgeRuntimeTag(h: Host) {
    h.edgeRuntime == Some("edge-runtime")
  }

  /** `run_env.edge_runtime`: `G.EdgeRuntime === 'edge-runtime'`. */
  predicate EdgeRuntimeFlag(h: Host) {
    Completes(h, EdgeProbe) && IsEdgeRuntimeTag(h)
  }

  /** No `Window` constructor, and a `WebSocketPair` or `HTMLRewriter` function. */
  predicate HasCloudflareGlobals(h: Host) {
    !h.windowConstructorDefined && (h.webSocketPairIsFunction || h.htmlRewriterIsFunction)
  }

  /** `run_env.cloudflare_worker`: the Cloudflare globals and no browser-worker flag. */
  predicate CloudflareFlag(h: Host, serviceWorker: bool, webWorker: bool, worklet: bool) {
    Completes(h, CloudflareProbe) && HasCloudflareGlobals(h)
    && !serviceWorker && !webWorker && !worklet
  }

  /** `run_env.shell`: none of `web`, `worker`, `nodejs`. */
  predicate ShellFlag(web: bool, worker: bool, nodejs: bool) {
    !web && !worker && !nodejs
  }

  /** The value the `details.node` block assigns: `pv.node` on a Node-like host, `null` otherwise. */
  function NodeVersionRead(isNodeLike: bool, pv: Option<Versions>): Option<string> {
    if isNodeLike && pv.Some? && Truthy(pv.value.node) then pv.value.node else None
  }

  /** The value the `details.bun` block assigns: `G.Bun.version`, else `pv.bun`, else `null`. */
  function BunVersionRead(h: Host, pv: Option<Versions>): Option<string> {
    if BunGlobalVersioned(h) then h.bun.value.version
    else if pv.Some? && Truthy(pv.value.bun) then pv.value.bun
    else None
  }

  /** The value the `details.deno` block assigns: `G.Deno.version.deno`, or `null`. */
  function DenoVersionRead(h: Host): Option<string> {
    if h.deno.Some? && h.deno.value.version.Some? && Truthy(h.deno.value.version.value.deno)
    then h.deno.value.version.value.deno else None
  }

  /** The value the `details.electron` block assigns: `pv.electron`, or `null`. */
  function ElectronVersionRead(pv: Option<Versions>): Option<string> {
    if pv.Some? && Truthy(pv.value.electron) then pv.value.electron else None
  }

  /** `run_env.details.node`. */
  function NodeVersion(h: Host, pv: Option<Versions>): Option<string> {
    if Completes(h, NodeDetail) then NodeVersionRead(IsNodeLike(h), pv) else None
  }

  /** `run_env.details.bun`. */
  function BunVersion(h: Host, pv: Option<Versions>): Option<string> {
    if Completes(h, BunDetail) then BunVersionRead(h, pv) else None
  }

  /** `run_env.details.deno`. */
  function DenoVersionOf(h: Host): Option<string> {
    if Completes(h, DenoDetail) then DenoVersionRead(h) else None
  }

  /** `run_env.details.electron`. */
  function ElectronVersion(h: Host, pv: Option<Versions>): Option<string> {
    if Completes(h, ElectronDetail) then ElectronVersionRead(pv) else None
  }

  /** `run_env.details.edge`: `G.EdgeRuntime` when it is a string. */
  function EdgeVersion(h: Host): Option<string> {
    if Completes(h, EdgeDetail) then h.edgeRuntime else None
  }

  /**
   * `run_env` after the probes and before `chooseName`, with `name` still
   * `'unknown'`. Each flag is computed from the host and from the flags
   * that earlier blocks wrote, in the order of the detection code.
   */
  function Probe(h: Host): Env {
    var window := WindowFlag(h);
    var web := WebFlag(h);
    var reactNative := ReactNativeFlag(h);
    var worklet := WorkletFlag(h);
    var serviceWorker := ServiceWorkerFlag(h);
    var webWorker := WebWorkerFlag(h, serviceWorker);
    var worker := WorkerFlag(h, serviceWorker, webWorker, worklet);
    var deno := DenoFlag(h);
    var bun := BunFlag(h);
    var pv := ProcessVersions(h);
    var electron := ElectronFlag(pv);
    var nwjs := NwjsFlag(pv);
    var nodejs := NodejsFlag(pv);
    var electronRenderer := ElectronRendererFlag(h, electron);
    var electronMain := ElectronMainFlag(h, electron);
    var nodeMain := NodeMainFlag(h, nodejs);
    var nodeWorker := NodeWorkerFlag(h, nodejs, webWorker, serviceWorker, worklet);
    var edgeRuntime := EdgeRuntimeFlag(h);
    var cloudflareWorker := CloudflareFlag(h, serviceWorker, webWorker, worklet);
    var shell := ShellFlag(web, worker, nodejs);
    var details := Details(NodeVersion(h, pv), BunVersion(h, pv), DenoVersionOf(h), ElectronVersion(h, pv), EdgeVersion(h));
    Env(PageFlags(window, web, reactNative),
        WorkerFlags(worker, webWorker, serviceWorker, worklet),
        RuntimeFlags(nodejs, bun, deno, nwjs),
        ElectronFlags(electron, electronMain, electronRenderer),
        ThreadFlags(nodeMain, nodeWorker),
        EdgeFlags(edgeRuntime, cloudflareWorker),
        shell, details, Unknown)
  }

  /** The final `run_env`: the probed flags, with `name` chosen by the precedence chain. */
  function Classify(h: Host): Env {
    var e := Probe(h);
    e.(name := FirstMatch(Precedence(e), Unknown))
  }

  /** The final name is what `chooseName` picks on the final flags: assigning it changes no rule. */
  lemma ClassifyNameIsChosen(h: Host)
    ensures Classify(h).name == FirstMatch(Precedence(Classify(h)), Unknown)
  {
    var e := Probe(h);
    PrecedenceIgnoresName(e, FirstMatch(Precedence(e), Unknown));
  }

  /** Renaming a record leaves its naming chain unchanged. */
  lemma PrecedenceIgnoresName(e: Env, n: EnvName)
    ensures Precedence(e.(name := n)) == Precedence(e)
  {
  }

  // ----- properties of the classification -----

  /** Every canonical name has a distinct, non-empty label. */
  lemma LabelsDistinct(a: EnvName, b: EnvName)
    ensures Label(a) != ""
    ensures Label(a) == Label(b) ==> a == b
  {
    if a != b {
      match a
      case ElectronMain => assert Label(a)[9] == 'm';
      case ElectronRenderer => assert Label(a)[9] == 'r';
      case _ =>
    }
  }

  /** `shell` is the fallback flag: it holds exactly when none of `web`, `worker`, `nodejs` does. */
  lemma ShellIsFallback(h: Host)
    ensures var e := Classify(h);
      e.shell <==> !e.web && !e.worker && !e.nodejs
  {
  }

  /** Worker family: the service-worker and web-worker flags exclude each other, and `worker` is their union with `worklet`. */
  lemma WorkerFlagsAgree(h: Host)
    ensures var e := Classify(h);
      && !(e.serviceWorker && e.webWorker)
      && (e.worker ==> e.serviceWorker || e.webWorker || e.worklet)
      && (Completes(h, WorkerProbe) ==> (e.worker <==> e.serviceWorker || e.webWorker || e.worklet))
  {
  }

  /**
   * When the service-worker/web-worker block throws, `worker` stays false
   * even for a worklet, and `shell` then depends on `web` and `nodejs` alone.
   */
  lemma ThrowingWorkerBlockLeavesShellOpen(h: Host)
    requires !Completes(h, WorkerProbe)
    ensures var e := Classify(h);
      && !e.worker && !e.serviceWorker && !e.webWorker
      && (e.shell <==> !e.web && !e.nodejs)
  {
  }

  /**
   * A worklet scope (a `self` object, no `Window`) whose worker block throws,
   * as a throwing `self.skipWaiting` or `self.clients` getter makes it, is
   * flagged both `worklet` and `shell`, and named `'worklet'`.
   */
  lemma WorkletCanBeShell()
    ensures var h := Bare.(selfIsObject := true, workletScope := Some(true), throwing := {WorkerProbe});
      Classify(h).worklet && Classify(h).shell && Classify(h).name == Worklet
  {
    var h := Bare.(selfIsObject := true, workletScope := Some(true), throwing := {WorkerProbe});
    FirstMatchIsChain(Probe(h));
  }

  /** Electron: exactly one of main and renderer, the renderer being the context with a `window` object. */
  lemma ElectronFlagsAgree(h: Host)
    ensures var e := Classify(h);
      && (e.electron ==> (e.electronMain <==> !e.electronRenderer) && (e.electronRenderer <==> h.windowIsObject))
      && (!e.electron ==> !e.electronMain && !e.electronRenderer)
  {
  }

  /** Electron wins the naming chain, whatever else holds. */
  lemma ElectronNamedFirst(h: Host)
    requires Classify(h).electron
    ensures Classify(h).name == (if h.windowIsObject then ElectronRenderer else ElectronMain)
  {
  }

  /** Node: never under Bun's `process.versions.bun`; main and worker thread exclude each other and need `nodejs`. */
  lemma NodeFlags(h: Host)
    ensures var e := Classify(h);
      && (ProcessReportsBun(h) ==> !e.nodejs)
      && !(e.nodeMain && e.nodeWorker)
      && (!e.nodejs ==> !e.nodeMain && !e.nodeWorker)
      && (e.nodeWorker ==> h.isMainThread == Some(false) && !e.webWorker && !e.serviceWorker && !e.worklet)
      && (e.nodejs && h.isMainThread.None? ==> e.nodeMain)
  {
  }

  /** A Cloudflare worker has no `Window` constructor and is none of the browser-worker kinds. */
  lemma CloudflareFlags(h: Host)
    ensures var e := Classify(h);
      e.cloudflareWorker ==> !h.windowConstructorDefined && !e.serviceWorker && !e.webWorker && !e.worklet
  {
  }

  /**
   * Each `details` version is a non-empty string, and it is set only when
   * the flag it belongs to holds (or, for `node` and `edge`, a looser
   * condition: Node-like `process.versions.node`, a string `EdgeRuntime`).
   */
  lemma DetailsFollowFlags(h: Host)
    ensures var e := Classify(h);
      && (e.details.electron.Some? ==> e.electron && e.details.electron.value != "")
      && (e.details.node.Some? ==> IsNodeLike(h) && e.details.node.value != "")
      && (e.details.node.Some? && !ProcessReportsBun(h) ==> e.nodejs)
      && (e.details.bun.Some? && Completes(h, BunProbe) ==> e.bun && e.details.bun.value != "")
      && (e.details.deno.Some? && Completes(h, DenoProbe) ==> e.deno && e.details.deno.value != "")
      && (e.details.edge.Some? ==> h.edgeRuntime == e.details.edge)
      && (e.edgeRuntime && Completes(h, EdgeDetail) ==> e.details.edge == Some("edge-runtime"))
  {
  }

  /** The rule table read back as the `if … else if …` chain of `chooseName`, branch for branch. */
  lemma FirstMatchIsChain(e: Env)
    ensures FirstMatch(Precedence(e), Unknown) ==
      if e.electron then (if e.electronMain then ElectronMain else ElectronRenderer)
      else if e.edgeRuntime then EdgeRuntime
      else if e.cloudflareWorker then CloudflareWorker
      else if e.serviceWorker then ServiceWorker
      else if e.worklet then Worklet
      else if e.webWorker then WebWorker
      else if e.reactNative then ReactNative
      else if e.web then Browser
      else if e.bun then Bun
      else if e.deno then Deno
      else if e.nodeWorker then NodeWorker
      else if e.nodejs then Node
      else if e.nwjs then NwJs
      else if e.shell then Shell
      else Unknown
  {
    var rules := Precedence(e);
    FirstMatchFromStep(rules, 0, Unknown);
    FirstMatchFromStep(rules, 1, Unknown);
    FirstMatchFromStep(rules, 2, Unknown);
    FirstMatchFromStep(rules, 3, Unknown);
    FirstMatchFromStep(rules, 4, Unknown);
    FirstMatchFromStep(rules, 5, Unknown);
    FirstMatchFromStep(rules, 6, Unknown);
    FirstMatchFromStep(rules, 7, Unknown);
    FirstMatchFromStep(rules, 8, Unknown);
    FirstMatchFromStep(rules, 9, Unknown);
    FirstMatchFromStep(rules, 10, Unknown);
    FirstMatchFromStep(rules, 11, Unknown);
    FirstMatchFromStep(rules, 12, Unknown);
    FirstMatchFromStep(rules, 13, Unknown);
  }

  /**
   * On any record whose `shell` flag is the fallback of `web`, `worker` and
   * `nodejs`, and whose `worker` flag comes from one of the worker kinds,
   * the naming chain never reaches `'unknown'`.
   */
  lemma UnknownUnreachable(e: Env)
    requires e.shell <==> !e.web && !e.worker && !e.nodejs
    requires e.worker ==> e.serviceWorker || e.webWorker || e.worklet
    ensures FirstMatch(Precedence(e), Unknown) != Unknown
  {
    var rules := Precedence(e);
    FallbackOnlyWhenNothingHolds(rules, Unknown);
    if e.shell {
      assert rules[13].holds;
    } else if e.web {
      assert rules[7].holds;
    } else if e.nodejs {
      assert rules[11].holds;
    } else if e.serviceWorker {
      assert rules[3].holds;
    } else if e.worklet {
      assert rules[4].holds;
    } else {
      assert rules[5].holds;
    }
  }

  /** The `'unknown'` branch of `chooseName` is dead for every host. */
  lemma NeverUnknown(h: Host)
    ensures Classify(h).name != Unknown
  {
    ShellIsFallback(h);
    WorkerFlagsAgree(h);
    UnknownUnreachable(Probe(h));
  }

  /**
   * A host that exposes none of the recognised globals is named `'shell'`:
   * `shell` is its only flag and no version is read.
   */
  lemma BareHostIsShell()
    ensures Classify(Bare) == Env(PageFlags(false, false, false), WorkerFlags(false, false, false, false),
                                  RuntimeFlags(false, false, false, false), ElectronFlags(false, false, false),
                                  ThreadFlags(false, false), EdgeFlags(false, false), true,
                                  Details(None, None, None, None, None), Shell)
  {
    BareHostProbe();
    BareHostNamedShell();
  }

  /** The naming chain, run on the bare host's flags, ends at the `shell` branch. */
  lemma BareHostNamedShell()
    ensures FirstMatch(Precedence(Probe(Bare)), Unknown) == Shell
  {
    BareHostProbe();
    FirstMatchIsChain(Probe(Bare));
  }

  /** On the bare host every probe comes out false except the `shell` fallback, and no version is read. */
  lemma BareHostProbe()
    ensures Probe(Bare) == Env(PageFlags(false, false, false), WorkerFlags(false, false, false, false),
                               RuntimeFlags(false, false, false, false), ElectronFlags(false, false, false),
                               ThreadFlags(false, false), EdgeFlags(false, false), true,
                               Details(None, None, None, None, None), Unknown)
  {
  }

  /**
   * A browser main thread (`window`, `document` and `Window`, no `process`,
   * a `navigator` that is not React Native's) is named `'browser'`.
   */
  lemma BrowserMainThread(h: Host)
    requires h.windowIsObject && h.documentIsObject && h.windowConstructorDefined
    requires h.process.None? && h.edgeRuntime.None? && h.workletScope.None? && !NavigatorIsReactNative(h)
    requires Completes(h, WebProbe)
    ensures Classify(h).name == Browser && Classify(h).web && !Classify(h).nodejs
  {
    FirstMatchIsChain(Probe(h));
  }

  /**
   * A Node main thread (`process.versions.node`, neither Bun nor Electron, no
   * other runtime global, any `navigator` but React Native's) is named `'node'`.
   */
  lemma NodeMainThread(h: Host)
    requires h.process.Some? && h.process.value.versions.Some?
    requires var v := h.process.value.versions.value;
      Truthy(v.node) && !Truthy(v.bun) && !Truthy(v.electron)
    requires IsMainThread(h)
    requires !h.windowIsObject && !h.selfIsObject && h.workletScope.None? && !NavigatorIsReactNative(h)
    requires h.edgeRuntime.None? && !h.webSocketPairIsFunction && !h.htmlRewriterIsFunction
    requires h.deno.None? && h.bun.None?
    requires Completes(h, NodeLikeProbe) && Completes(h, VersionsProbe)
    ensures var e := Classify(h);
      e.name == Node && e.nodeMain && !e.nodeWorker
  {
    FirstMatchIsChain(Probe(h));
  }

  /** The same host on a `worker_threads` thread is named `'node-worker'`. */
  lemma NodeWorkerThread(h: Host)
    requires h.process.Some? && h.process.value.versions.Some?
    requires var v := h.process.value.versions.value;
      Truthy(v.node) && !Truthy(v.bun) && !Truthy(v.electron)
    requires h.isMainThread == Some(false)
    requires !h.windowIsObject && !h.selfIsObject && h.workletScope.None? && !NavigatorIsReactNative(h)
    requires h.edgeRuntime.None? && !h.webSocketPairIsFunction && !h.htmlRewriterIsFunction
    requires h.deno.None? && h.bun.None?
    requires Completes(h, NodeLikeProbe) && Completes(h, VersionsProbe)
    ensures var e := Classify(h);
      e.name == NodeWorker && e.nodeWorker && !e.nodeMain
  {
    FirstMatchIsChain(Probe(h));
  }

  /**
   * A service worker (`self`, no `Window`, `skipWaiting` and `clients`) with
   * no `process` and no `EdgeRuntime` is named `'service-worker'`: without
   * `process` no Electron rule applies, and `cloudflare_worker` needs
   * `service_worker` false.
   */
  lemma ServiceWorkerHost(h: Host)
    requires h.selfIsObject && !h.windowConstructorDefined && h.skipWaitingIsFunction && h.clientsIsObject
    requires Completes(h, SelfProbe) && Completes(h, WorkerProbe)
    requires h.process.None? && h.edgeRuntime.None?
    ensures Classify(h).name == ServiceWorker && Classify(h).serviceWorker && !Classify(h).webWorker
  {
    FirstMatchIsChain(Probe(h));
  }

  /** An Electron renderer (`process.versions.electron` and a `window` object) is named `'electron-renderer'`. */
  lemma ElectronRendererHost(h: Host)
    requires h.process.Some? && h.process.value.versions.Some? && Truthy(h.process.value.versions.value.electron)
    requires h.windowIsObject
    requires Completes(h, NodeLikeProbe) && Completes(h, VersionsProbe)
    ensures Classify(h).name == ElectronRenderer && Classify(h).electronRenderer
  {
  }
}
