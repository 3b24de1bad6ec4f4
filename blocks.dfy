/**
 * The detection code block by block: one function per `try` block (or
 * unguarded statement) giving the `run_env` record after that block from
 * the record before it. A block that throws leaves the record as it was.
 * `Run` applies the blocks in source order to the object literal, and is
 * proved to agree with the closed form `Classifier.Classify`.
 */
module Blocks {
  import opened JsStrings
  import opened Host
  import opened Classifier

  /** The object literal: every flag false, every version `null`, the name `'unknown'`. */
  const Initial: Env := Env(PageFlags(false, false, false), WorkerFlags(false, false, false, false),
                            RuntimeFlags(false, false, false, false), ElectronFlags(false, false, false),
                            ThreadFlags(false, false), EdgeFlags(false, false), false,
                            Details(None, None, None, None, None), Unknown)

  function WindowBlock(h: Host, e: Env): Env {
    if Completes(h, WindowProbe) then e.(pageFlags := e.pageFlags.(window := h.windowIsObject)) else e
  }

  function WebBlock(h: Host, e: Env): Env {
    if Completes(h, WebProbe) then e.(pageFlags := e.pageFlags.(web := h.windowIsObject && h.documentIsObject)) else e
  }

  function ReactNativeBlock(h: Host, e: Env): Env {
    if Completes(h, ReactNativeProbe)
    then e.(pageFlags := e.pageFlags.(reactNative := NavigatorIsReactNative(h)))
    else e
  }

  function WorkletBlock(h: Host, e: Env): Env {
    if Completes(h, WorkletProbe)
    then e.(workerFlags := e.workerFlags.(worklet := SelfIsWorklet(h)))
    else e
  }

  /** The service-worker test, then the web-worker test that reads the flag just set, then `worker`. */
  function WorkersBlock(h: Host, hasSelf: bool, hasImportScripts: bool, e: Env): Env {
    if Completes(h, WorkerProbe) then
      var serviceWorker := hasSelf && !h.windowConstructorDefined && h.skipWaitingIsFunction && h.clientsIsObject;
      var webWorker := hasSelf && hasImportScripts && !h.windowConstructorDefined && !serviceWorker;
      e.(workerFlags := e.workerFlags.(serviceWorker := serviceWorker, webWorker := webWorker,
                                        worker := serviceWorker || webWorker || e.worklet))
    else e
  }

  function DenoBlock(h: Host, e: Env): Env {
    if Completes(h, DenoProbe) then e.(runtimeFlags := e.runtimeFlags.(deno := DenoGlobalVersioned(h))) else e
  }

  function BunBlock(h: Host, e: Env): Env {
    if Completes(h, BunProbe) then e.(runtimeFlags := e.runtimeFlags.(bun := BunGlobalVersioned(h) || ProcessReportsBun(h))) else e
  }

  /** `pv` as the Node/Electron/NW.js block reads it: `process.versions` on a Node-like host. */
  function VersionsRead(h: Host, isNodeLike: bool): Option<Versions>
    requires isNodeLike ==> h.process.Some?
  {
    if isNodeLike then h.process.value.versions else None
  }

  /** Electron, NW.js and Node from `pv`; the Electron split only under Electron. */
  function VersionsBlock(h: Host, pv: Option<Versions>, e: Env): Env {
    if Completes(h, VersionsProbe) then
      var electron := pv.Some? && Truthy(pv.value.electron);
      var e1 := e.(electronFlags := e.electronFlags.(electron := electron),
                   runtimeFlags := e.runtimeFlags.(nwjs := pv.Some? && Truthy(pv.value.nw),
                                                   nodejs := pv.Some? && Truthy(pv.value.node) && !Truthy(pv.value.bun)));
      if electron
      then e1.(electronFlags := e1.electronFlags.(electronRenderer := h.windowIsObject, electronMain := !h.windowIsObject))
      else e1
    else e
  }

  /** The unguarded Node main/worker block. */
  function NodeThreadBlock(h: Host, e: Env): Env {
    if e.nodejs then
      var isMain := IsMainThread(h);
      e.(threadFlags := ThreadFlags(isMain, !isMain && !e.webWorker && !e.serviceWorker && !e.worklet))
    else e
  }

  function EdgeBlock(h: Host, e: Env): Env {
    if Completes(h, EdgeProbe) then e.(edgeFlags := e.edgeFlags.(edgeRuntime := IsEdgeRuntimeTag(h))) else e
  }

  function CloudflareBlock(h: Host, e: Env): Env {
    if Completes(h, CloudflareProbe) then
      e.(edgeFlags := e.edgeFlags.(cloudflareWorker := HasCloudflareGlobals(h) && !e.serviceWorker && !e.webWorker && !e.worklet))
    else e
  }

  function NodeDetailBlock(h: Host, isNodeLike: bool, pv: Option<Versions>, e: Env): Env {
    if Completes(h, NodeDetail)
    then e.(details := e.details.(node := NodeVersionRead(isNodeLike, pv)))
    else e
  }

  function BunDetailBlock(h: Host, pv: Option<Versions>, e: Env): Env {
    if Completes(h, BunDetail)
    then e.(details := e.details.(bun := BunVersionRead(h, pv)))
    else e
  }

  function DenoDetailBlock(h: Host, e: Env): Env {
    if Completes(h, DenoDetail)
    then e.(details := e.details.(deno := DenoVersionRead(h)))
    else e
  }

  function ElectronDetailBlock(h: Host, pv: Option<Versions>, e: Env): Env {
    if Completes(h, ElectronDetail)
    then e.(details := e.details.(electron := ElectronVersionRead(pv)))
    else e
  }

  function EdgeDetailBlock(h: Host, e: Env): Env {
    if Completes(h, EdgeDetail) then e.(details := e.details.(edge := h.edgeRuntime)) else e
  }

  function ShellBlock(e: Env): Env {
    e.(shell := ShellFlag(e.web, e.worker, e.nodejs))
  }

  /** `chooseName`. */
  function NameBlock(e: Env): Env {
    e.(name := FirstMatch(Precedence(e), Unknown))
  }

  /** The flag blocks, from the object literal to the Cloudflare block. */
  function RunFlags(h: Host): Env {
    var e1 := WebBlock(h, WindowBlock(h, Initial));
    var e2 := WorkersBlock(h, HasSelf(h), HasImportScripts(h), WorkletBlock(h, ReactNativeBlock(h, e1)));
    var e3 := VersionsBlock(h, ProcessVersions(h), BunBlock(h, DenoBlock(h, e2)));
    CloudflareBlock(h, EdgeBlock(h, NodeThreadBlock(h, e3)))
  }

  /** The whole detection code, block by block. */
  function Run(h: Host): Env {
    var pv := ProcessVersions(h);
    var e := EdgeDetailBlock(h, ElectronDetailBlock(h, pv, DenoDetailBlock(h, BunDetailBlock(h, pv,
               NodeDetailBlock(h, IsNodeLike(h), pv, RunFlags(h))))));
    NameBlock(ShellBlock(e))
  }

  // ----- each block, run on the object literal's values, assigns the closed-form flag -----

  lemma WindowBlockSetsFlag(h: Host, e: Env)
    requires !e.window
    ensures WindowBlock(h, e) == e.(pageFlags := e.pageFlags.(window := WindowFlag(h)))
  {
  }

  lemma WebBlockSetsFlag(h: Host, e: Env)
    requires !e.web
    ensures WebBlock(h, e) == e.(pageFlags := e.pageFlags.(web := WebFlag(h)))
  {
  }

  lemma ReactNativeBlockSetsFlag(h: Host, e: Env)
    requires !e.reactNative
    ensures ReactNativeBlock(h, e) == e.(pageFlags := e.pageFlags.(reactNative := ReactNativeFlag(h)))
  {
  }

  lemma WorkletBlockSetsFlag(h: Host, e: Env)
    requires !e.worklet
    ensures WorkletBlock(h, e) == e.(workerFlags := e.workerFlags.(worklet := WorkletFlag(h)))
  {
  }

  lemma WorkersBlockSetsFlags(h: Host, e: Env)
    requires !e.serviceWorker && !e.webWorker && !e.worker
    ensures var sw := ServiceWorkerFlag(h);
      var ww := WebWorkerFlag(h, sw);
      WorkersBlock(h, HasSelf(h), HasImportScripts(h), e)
        == e.(workerFlags := e.workerFlags.(serviceWorker := sw, webWorker := ww, worker := WorkerFlag(h, sw, ww, e.worklet)))
  {
  }

  lemma DenoBlockSetsFlag(h: Host, e: Env)
    requires !e.deno
    ensures DenoBlock(h, e) == e.(runtimeFlags := e.runtimeFlags.(deno := DenoFlag(h)))
  {
  }

  lemma BunBlockSetsFlag(h: Host, e: Env)
    requires !e.bun
    ensures BunBlock(h, e) == e.(runtimeFlags := e.runtimeFlags.(bun := BunFlag(h)))
  {
  }

  lemma VersionsBlockSetsFlags(h: Host, e: Env)
    requires !e.electron && !e.nwjs && !e.nodejs && !e.electronRenderer && !e.electronMain
    ensures var pv := ProcessVersions(h);
      var electron := ElectronFlag(pv);
      VersionsBlock(h, pv, e)
        == e.(electronFlags := ElectronFlags(electron, ElectronMainFlag(h, electron), ElectronRendererFlag(h, electron)),
              runtimeFlags := e.runtimeFlags.(nwjs := NwjsFlag(pv), nodejs := NodejsFlag(pv)))
  {
  }

  lemma NodeThreadBlockSetsFlags(h: Host, e: Env)
    requires !e.nodeMain && !e.nodeWorker
    ensures NodeThreadBlock(h, e)
      == e.(threadFlags := ThreadFlags(NodeMainFlag(h, e.nodejs),
                                       NodeWorkerFlag(h, e.nodejs, e.webWorker, e.serviceWorker, e.worklet)))
  {
  }

  lemma EdgeBlockSetsFlag(h: Host, e: Env)
    requires !e.edgeRuntime
    ensures EdgeBlock(h, e) == e.(edgeFlags := e.edgeFlags.(edgeRuntime := EdgeRuntimeFlag(h)))
  {
  }

  lemma NodeDetailBlockSetsVersion(h: Host, pv: Option<Versions>, e: Env)
    requires e.details.node.None?
    ensures NodeDetailBlock(h, IsNodeLike(h), pv, e) == e.(details := e.details.(node := NodeVersion(h, pv)))
  {
  }

  lemma BunDetailBlockSetsVersion(h: Host, pv: Option<Versions>, e: Env)
    requires e.details.bun.None?
    ensures BunDetailBlock(h, pv, e) == e.(details := e.details.(bun := BunVersion(h, pv)))
  {
  }

  lemma DenoDetailBlockSetsVersion(h: Host, e: Env)
    requires e.details.deno.None?
    ensures DenoDetailBlock(h, e) == e.(details := e.details.(deno := DenoVersionOf(h)))
  {
  }

  lemma ElectronDetailBlockSetsVersion(h: Host, pv: Option<Versions>, e: Env)
    requires e.details.electron.None?
    ensures ElectronDetailBlock(h, pv, e) == e.(details := e.details.(electron := ElectronVersion(h, pv)))
  {
  }

  lemma EdgeDetailBlockSetsVersion(h: Host, e: Env)
    requires e.details.edge.None?
    ensures EdgeDetailBlock(h, e) == e.(details := e.details.(edge := EdgeVersion(h)))
  {
  }

  /** The object literal once the blocks up to the `process.versions` one have assigned their closed forms. */
  function FirstFlags(h: Host): Env {
    var serviceWorker := ServiceWorkerFlag(h);
    var webWorker := WebWorkerFlag(h, serviceWorker);
    var pv := ProcessVersions(h);
    var electron := ElectronFlag(pv);
    Initial.(
      pageFlags := PageFlags(WindowFlag(h), WebFlag(h), ReactNativeFlag(h)),
      workerFlags := WorkerFlags(WorkerFlag(h, serviceWorker, webWorker, WorkletFlag(h)), webWorker, serviceWorker, WorkletFlag(h)),
      runtimeFlags := RuntimeFlags(NodejsFlag(pv), BunFlag(h), DenoFlag(h), NwjsFlag(pv)),
      electronFlags := ElectronFlags(electron, ElectronMainFlag(h, electron), ElectronRendererFlag(h, electron)))
  }

  /** The blocks up to the `process.versions` one assign their flags the closed forms. */
  lemma FirstBlocksAssignFlags(h: Host)
    ensures VersionsBlock(h, ProcessVersions(h), BunBlock(h, DenoBlock(h, WorkersBlock(h, HasSelf(h), HasImportScripts(h),
        WorkletBlock(h, ReactNativeBlock(h, WebBlock(h, WindowBlock(h, Initial))))))))
      == FirstFlags(h)
  {
    var e := Initial;
    WindowBlockSetsFlag(h, e);
    e := WindowBlock(h, e);
    WebBlockSetsFlag(h, e);
    e := WebBlock(h, e);
    ReactNativeBlockSetsFlag(h, e);
    e := ReactNativeBlock(h, e);
    WorkletBlockSetsFlag(h, e);
    e := WorkletBlock(h, e);
    WorkersBlockSetsFlags(h, e);
    e := WorkersBlock(h, HasSelf(h), HasImportScripts(h), e);
    DenoBlockSetsFlag(h, e);
    e := DenoBlock(h, e);
    BunBlockSetsFlag(h, e);
    e := BunBlock(h, e);
    VersionsBlockSetsFlags(h, e);
  }

  lemma CloudflareBlockSetsFlag(h: Host, e: Env)
    requires !e.cloudflareWorker
    ensures CloudflareBlock(h, e) == e.(edgeFlags := e.edgeFlags.(cloudflareWorker := CloudflareFlag(h, e.serviceWorker, e.webWorker, e.worklet)))
  {
  }

  /** The last three flag blocks; the Cloudflare block reads the browser-worker flags, which they leave alone. */
  lemma LastBlocksAssignFlags(h: Host, e: Env)
    requires !e.nodeMain && !e.nodeWorker && !e.edgeRuntime && !e.cloudflareWorker
    ensures CloudflareBlock(h, EdgeBlock(h, NodeThreadBlock(h, e))) == e.(
      threadFlags := ThreadFlags(NodeMainFlag(h, e.nodejs), NodeWorkerFlag(h, e.nodejs, e.webWorker, e.serviceWorker, e.worklet)),
      edgeFlags := EdgeFlags(EdgeRuntimeFlag(h), CloudflareFlag(h, e.serviceWorker, e.webWorker, e.worklet)))
  {
    NodeThreadBlockSetsFlags(h, e);
    var e1 := NodeThreadBlock(h, e);
    EdgeBlockSetsFlag(h, e1);
    var e2 := EdgeBlock(h, e1);
    CloudflareBlockSetsFlag(h, e2);
  }

  /** The last three flag blocks, run on the closed forms of the earlier flags, complete `Probe`'s flags. */
  lemma LastBlocksCompleteProbe(h: Host)
    ensures CloudflareBlock(h, EdgeBlock(h, NodeThreadBlock(h, FirstFlags(h))))
      == Probe(h).(shell := false, details := Initial.details, name := Unknown)
  {
    LastBlocksAssignFlags(h, FirstFlags(h));
  }

  /** The flag blocks, run in order on the object literal, assign every flag its closed form. */
  lemma RunFlagsAssignsFlags(h: Host)
    ensures RunFlags(h) == Probe(h).(shell := false, details := Initial.details, name := Unknown)
  {
    FirstBlocksAssignFlags(h);
    LastBlocksCompleteProbe(h);
  }

  /** The `details` blocks, run on a record whose details are all `null`, fill in every version. */
  lemma DetailBlocksFillDetails(h: Host, e: Env)
    requires e.details == Initial.details
    ensures var pv := ProcessVersions(h);
      EdgeDetailBlock(h, ElectronDetailBlock(h, pv, DenoDetailBlock(h, BunDetailBlock(h, pv,
        NodeDetailBlock(h, IsNodeLike(h), pv, e)))))
      == e.(details := Details(NodeVersion(h, pv), BunVersion(h, pv), DenoVersionOf(h), ElectronVersion(h, pv), EdgeVersion(h)))
  {
    var pv := ProcessVersions(h);
    NodeDetailBlockSetsVersion(h, pv, e);
    var e1 := NodeDetailBlock(h, IsNodeLike(h), pv, e);
    BunDetailBlockSetsVersion(h, pv, e1);
    var e2 := BunDetailBlock(h, pv, e1);
    DenoDetailBlockSetsVersion(h, e2);
    var e3 := DenoDetailBlock(h, e2);
    ElectronDetailBlockSetsVersion(h, pv, e3);
    var e4 := ElectronDetailBlock(h, pv, e3);
    EdgeDetailBlockSetsVersion(h, e4);
  }

  /** All blocks but `chooseName` produce the closed-form record, still named `'unknown'`. */
  lemma BlocksBeforeNameAreProbe(h: Host)
    ensures var pv := ProcessVersions(h);
      ShellBlock(EdgeDetailBlock(h, ElectronDetailBlock(h, pv, DenoDetailBlock(h, BunDetailBlock(h, pv,
        NodeDetailBlock(h, IsNodeLike(h), pv, RunFlags(h))))))) == Probe(h)
  {
    RunFlagsAssignsFlags(h);
    DetailBlocksFillDetails(h, RunFlags(h));
  }

  /** Running the blocks one after another yields the closed-form classification. */
  lemma RunIsClassify(h: Host)
    ensures Run(h) == Classify(h)
  {
    BlocksBeforeNameAreProbe(h);
  }
}
