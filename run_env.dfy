/**
 * The detection code as it runs: a `run_env` object created with every
 * flag false, every version `null` and the name `'unknown'`, whose fields
 * are then assigned one `try` block at a time, later blocks reading the
 * flags earlier blocks wrote. Each method is proved to do to the object
 * what its block function in `Blocks` does to the record, and `Detect` to
 * leave exactly the record that `Classifier.Classify` describes.
 */
module RunEnvObject {
  import opened JsStrings
  import opened Host
  import opened Classifier
  import opened Blocks

  /** `run_env.details`, a nested record written field by field. */
  class RunEnvDetails {
    var node: Option<string>
    var bun: Option<string>
    var deno: Option<string>
    var electron: Option<string>
    var edge: Option<string>

    constructor ()
      ensures node == None && bun == None && deno == None && electron == None && edge == None
    {
      node, bun, deno, electron, edge := None, None, None, None, None;
    }
  }

  /** The `run_env` object. */
  class RunEnv {
    var web: bool
    var window: bool
    var worker: bool
    var webWorker: bool
    var serviceWorker: bool
    var worklet: bool
    var nodejs: bool
    var bun: bool
    var deno: bool
    var electron: bool
    var electronMain: bool
    var electronRenderer: bool
    var nodeMain: bool
    var nodeWorker: bool
    var reactNative: bool
    var edgeRuntime: bool
    var cloudflareWorker: bool
    var nwjs: bool
    var shell: bool
    const details: RunEnvDetails
    var name: EnvName

    /** The record the object currently holds. */
    function View(): Env
      reads this, details
    {
      Env(PageFlags(window, web, reactNative),
          WorkerFlags(worker, webWorker, serviceWorker, worklet),
          RuntimeFlags(nodejs, bun, deno, nwjs),
          ElectronFlags(electron, electronMain, electronRenderer),
          ThreadFlags(nodeMain, nodeWorker),
          EdgeFlags(edgeRuntime, cloudflareWorker),
          shell,
          Details(details.node, details.bun, details.deno, details.electron, details.edge),
          name)
    }

    /** The object literal: every flag false, every version `null`, the name `'unknown'`. */
    constructor ()
      ensures fresh(details)
      ensures View() == Initial
    {
      web, window, worker, webWorker, serviceWorker := false, false, false, false, false;
      worklet, nodejs, bun, deno := false, false, false, false;
      electron, electronMain, electronRenderer := false, false, false;
      nodeMain, nodeWorker, reactNative := false, false, false;
      edgeRuntime, cloudflareWorker, nwjs := false, false, false;
      shell := false;
      details := new RunEnvDetails();
      name := Unknown;
    }

    // ----- assignments: each writes the fields one block assigns and nothing else -----

    /** `run_env.window = v`. */
    method SetWindow(v: bool)
      modifies this
      ensures var o := old(View()); View() == o.(pageFlags := o.pageFlags.(window := v))
    {
      window := v;
    }

    /** `run_env.web = v`. */
    method SetWeb(v: bool)
      modifies this
      ensures var o := old(View()); View() == o.(pageFlags := o.pageFlags.(web := v))
    {
      web := v;
    }

    /** `run_env.react_native = v`. */
    method SetReactNative(v: bool)
      modifies this
      ensures var o := old(View()); View() == o.(pageFlags := o.pageFlags.(reactNative := v))
    {
      reactNative := v;
    }

    /** `run_env.worklet = v`. */
    method SetWorklet(v: bool)
      modifies this
      ensures var o := old(View()); View() == o.(workerFlags := o.workerFlags.(worklet := v))
    {
      worklet := v;
    }

    /** The three assignments of the service-worker/web-worker block. */
    method SetWorkers(isServiceWorker: bool, isWebWorker: bool, isWorker: bool)
      modifies this
      ensures var o := old(View());
        View() == o.(workerFlags := o.workerFlags.(serviceWorker := isServiceWorker, webWorker := isWebWorker, worker := isWorker))
    {
      serviceWorker := isServiceWorker;
      webWorker := isWebWorker;
      worker := isWorker;
    }

    /** `run_env.deno = v`. */
    method SetDeno(v: bool)
      modifies this
      ensures var o := old(View()); View() == o.(runtimeFlags := o.runtimeFlags.(deno := v))
    {
      deno := v;
    }

    /** `run_env.bun = v`. */
    method SetBun(v: bool)
      modifies this
      ensures var o := old(View()); View() == o.(runtimeFlags := o.runtimeFlags.(bun := v))
    {
      bun := v;
    }

    /** The Electron, NW.js and Node assignments of the `process.versions` block. */
    method SetNodeFamily(isElectron: bool, isNwjs: bool, isNode: bool)
      modifies this
      ensures var o := old(View());
        View() == o.(electronFlags := o.electronFlags.(electron := isElectron),
                     runtimeFlags := o.runtimeFlags.(nwjs := isNwjs, nodejs := isNode))
    {
      electron := isElectron;
      nwjs := isNwjs;
      nodejs := isNode;
    }

    /** The Electron renderer/main split. */
    method SetElectronProcess(isRenderer: bool)
      modifies this
      ensures var o := old(View());
        View() == o.(electronFlags := o.electronFlags.(electronRenderer := isRenderer, electronMain := !isRenderer))
    {
      electronRenderer := isRenderer;
      electronMain := !electronRenderer;
    }

    /** The two assignments of the Node main/worker block. */
    method SetNodeThread(isMain: bool, isWorker: bool)
      modifies this
      ensures View() == old(View()).(threadFlags := ThreadFlags(isMain, isWorker))
    {
      nodeMain := isMain;
      nodeWorker := isWorker;
    }

    /** `run_env.edge_runtime = v`. */
    method SetEdgeRuntime(v: bool)
      modifies this
      ensures var o := old(View()); View() == o.(edgeFlags := o.edgeFlags.(edgeRuntime := v))
    {
      edgeRuntime := v;
    }

    /** `run_env.cloudflare_worker = v`. */
    method SetCloudflareWorker(v: bool)
      modifies this
      ensures var o := old(View()); View() == o.(edgeFlags := o.edgeFlags.(cloudflareWorker := v))
    {
      cloudflareWorker := v;
    }

    /** `run_env.shell = v`. */
    method SetShell(v: bool)
      modifies this
      ensures View() == old(View()).(shell := v)
    {
      shell := v;
    }

    /** `run_env.name = n`. */
    method SetName(n: EnvName)
      modifies this
      ensures View() == old(View()).(name := n)
    {
      name := n;
    }

    // ----- the detection blocks, in source order; a block that throws assigns nothing -----

    /** `run_env.window`. */
    method ProbeWindow(h: Host)
      modifies this
      ensures View() == WindowBlock(h, old(View()))
    {
      if Completes(h, WindowProbe) {
        SetWindow(h.windowIsObject);
      }
    }

    /** `run_env.web`. */
    method ProbeWeb(h: Host)
      modifies this
      ensures View() == WebBlock(h, old(View()))
    {
      if Completes(h, WebProbe) {
        SetWeb(h.windowIsObject && h.documentIsObject);
      }
    }

    /** React Native: `navigator.product === 'ReactNative'`. */
    method ProbeReactNative(h: Host)
      modifies this
      ensures View() == ReactNativeBlock(h, old(View()))
    {
      if Completes(h, ReactNativeProbe) {
        SetReactNative(h.navigator.Some? && h.navigator.value.product == Some("ReactNative"));
      }
    }

    /** Worklet: `self instanceof WorkletGlobalScope` when that constructor exists. */
    method ProbeWorklet(h: Host)
      modifies this
      ensures View() == WorkletBlock(h, old(View()))
    {
      if Completes(h, WorkletProbe) {
        SetWorklet(if h.workletScope.Some? then h.workletScope.value else false);
      }
    }

    /** Service worker, then web worker (never both), then `worker`, which also counts a worklet. */
    method ProbeWorkers(h: Host, hasSelf: bool, hasImportScripts: bool)
      modifies this
      ensures View() == WorkersBlock(h, hasSelf, hasImportScripts, old(View()))
    {
      if Completes(h, WorkerProbe) {
        var isServiceWorker := hasSelf && !h.windowConstructorDefined && h.skipWaitingIsFunction && h.clientsIsObject;
        var isWebWorker := hasSelf && hasImportScripts && !h.windowConstructorDefined && !isServiceWorker;
        SetWorkers(isServiceWorker, isWebWorker, isServiceWorker || isWebWorker || worklet);
      }
    }

    /** `run_env.deno`: `G.Deno && G.Deno.version`. */
    method ProbeDeno(h: Host)
      modifies this
      ensures View() == DenoBlock(h, old(View()))
    {
      if Completes(h, DenoProbe) {
        SetDeno(h.deno.Some? && h.deno.value.version.Some?);
      }
    }

    /** `run_env.bun`: a versioned `Bun` global, or `process.versions.bun`. */
    method ProbeBun(h: Host)
      modifies this
      ensures View() == BunBlock(h, old(View()))
    {
      if Completes(h, BunProbe) {
        SetBun((h.bun.Some? && Truthy(h.bun.value.version))
          || (h.process.Some? && h.process.value.versions.Some? && Truthy(h.process.value.versions.value.bun)));
      }
    }

    /**
     * Node, Electron and NW.js from `pv`, which the block also yields; under
     * Electron, the renderer has a `window` and the main process does not.
     */
    method ProbeProcessVersions(h: Host, isNodeLike: bool) returns (pv: Option<Versions>)
      requires isNodeLike ==> h.process.Some?
      modifies this
      ensures pv == if Completes(h, VersionsProbe) then VersionsRead(h, isNodeLike) else None
      ensures View() == VersionsBlock(h, pv, old(View()))
    {
      pv := None;
      if Completes(h, VersionsProbe) {
        pv := if isNodeLike then h.process.value.versions else None;
        var isElectron := pv.Some? && Truthy(pv.value.electron);
        SetNodeFamily(isElectron, pv.Some? && Truthy(pv.value.nw), pv.Some? && Truthy(pv.value.node) && !Truthy(pv.value.bun));
        if isElectron {
          SetElectronProcess(h.windowIsObject);
        }
      }
    }

    /** Under Node, `worker_threads.isMainThread` (the main thread when it says nothing). */
    method ProbeNodeThread(h: Host)
      modifies this
      ensures View() == NodeThreadBlock(h, old(View()))
    {
      if nodejs {
        var isMain := true;
        if h.isMainThread.Some? {
          isMain := h.isMainThread.value;
        }
        SetNodeThread(isMain, !isMain && !webWorker && !serviceWorker && !worklet);
      }
    }

    /** `run_env.edge_runtime`: `G.EdgeRuntime === 'edge-runtime'`. */
    method ProbeEdgeRuntime(h: Host)
      modifies this
      ensures View() == EdgeBlock(h, old(View()))
    {
      if Completes(h, EdgeProbe) {
        SetEdgeRuntime(h.edgeRuntime == Some("edge-runtime"));
      }
    }

    /** `run_env.cloudflare_worker`: Cloudflare globals, no `Window`, no browser-worker flag. */
    method ProbeCloudflare(h: Host)
      modifies this
      ensures View() == CloudflareBlock(h, old(View()))
    {
      if Completes(h, CloudflareProbe) {
        var noWindow := !h.windowConstructorDefined;
        var hasCloudflareGlobal := h.webSocketPairIsFunction || h.htmlRewriterIsFunction;
        SetCloudflareWorker(noWindow && hasCloudflareGlobal && !serviceWorker && !webWorker && !worklet);
      }
    }

    /** `details.node`: `pv.node` on a Node-like host. */
    method FillNodeVersion(h: Host, isNodeLike: bool, pv: Option<Versions>)
      modifies details
      ensures View() == NodeDetailBlock(h, isNodeLike, pv, old(View()))
    {
      if Completes(h, NodeDetail) {
        details.node := if isNodeLike && pv.Some? && Truthy(pv.value.node) then pv.value.node else None;
      }
    }

    /** `details.bun`: `G.Bun.version`, else `pv.bun`. */
    method FillBunVersion(h: Host, pv: Option<Versions>)
      modifies details
      ensures View() == BunDetailBlock(h, pv, old(View()))
    {
      if Completes(h, BunDetail) {
        var version := None;
        if h.bun.Some? && Truthy(h.bun.value.version) {
          version := h.bun.value.version;
        } else if pv.Some? && Truthy(pv.value.bun) {
          version := pv.value.bun;
        }
        details.bun := version;
      }
    }

    /** `details.deno`: `G.Deno.version.deno`. */
    method FillDenoVersion(h: Host)
      modifies details
      ensures View() == DenoDetailBlock(h, old(View()))
    {
      if Completes(h, DenoDetail) {
        var hasVersion := h.deno.Some? && h.deno.value.version.Some? && Truthy(h.deno.value.version.value.deno);
        details.deno := if hasVersion then h.deno.value.version.value.deno else None;
      }
    }

    /** `details.electron`: `pv.electron`. */
    method FillElectronVersion(h: Host, pv: Option<Versions>)
      modifies details
      ensures View() == ElectronDetailBlock(h, pv, old(View()))
    {
      if Completes(h, ElectronDetail) {
        details.electron := if pv.Some? && Truthy(pv.value.electron) then pv.value.electron else None;
      }
    }

    /** `details.edge`: `G.EdgeRuntime` whenever it is a string. */
    method FillEdgeVersion(h: Host)
      modifies details
      ensures View() == EdgeDetailBlock(h, old(View()))
    {
      if Completes(h, EdgeDetail) {
        details.edge := h.edgeRuntime;
      }
    }

    /** `run_env.shell`: none of `web`, `worker`, `nodejs` was detected. */
    method ProbeShell()
      modifies this
      ensures View() == ShellBlock(old(View()))
    {
      SetShell(!web && !worker && !nodejs);
    }

    /** From the `window` block to the service-worker/web-worker block, with `hasSelf` and `hasImportScripts`. */
    method DetectBrowserFlags(h: Host)
      modifies this
      ensures View() == WorkersBlock(h, HasSelf(h), HasImportScripts(h),
        WorkletBlock(h, ReactNativeBlock(h, WebBlock(h, WindowBlock(h, old(View()))))))
    {
      ProbeWindow(h);
      ProbeWeb(h);
      var hasSelf, hasImportScripts := false, false;
      if Completes(h, SelfProbe) {
        hasSelf := h.selfIsObject;
      }
      if Completes(h, ImportScriptsProbe) {
        hasImportScripts := h.importScriptsIsFunction;
      }
      ProbeReactNative(h);
      ProbeWorklet(h);
      ProbeWorkers(h, hasSelf, hasImportScripts);
    }

    /** From the Deno block to the Cloudflare block, with `isNodeLike` and `pv`, which it yields. */
    method DetectRuntimeFlags(h: Host) returns (isNodeLike: bool, pv: Option<Versions>)
      modifies this
      ensures isNodeLike == IsNodeLike(h) && pv == ProcessVersions(h)
      ensures View() == CloudflareBlock(h, EdgeBlock(h, NodeThreadBlock(h,
        VersionsBlock(h, pv, BunBlock(h, DenoBlock(h, old(View())))))))
    {
      ProbeDeno(h);
      ProbeBun(h);
      isNodeLike := false;
      if Completes(h, NodeLikeProbe) {
        isNodeLike := h.process.Some? && h.process.value.versions.Some?;
      }
      pv := ProbeProcessVersions(h, isNodeLike);
      ProbeNodeThread(h);
      ProbeEdgeRuntime(h);
      ProbeCloudflare(h);
    }

    /** The five `details` blocks. */
    method FillDetails(h: Host, isNodeLike: bool, pv: Option<Versions>)
      modifies details
      ensures View() == EdgeDetailBlock(h, ElectronDetailBlock(h, pv, DenoDetailBlock(h,
        BunDetailBlock(h, pv, NodeDetailBlock(h, isNodeLike, pv, old(View()))))))
    {
      FillNodeVersion(h, isNodeLike, pv);
      FillBunVersion(h, pv);
      FillDenoVersion(h);
      FillElectronVersion(h, pv);
      FillEdgeVersion(h);
    }

    /** The branch of `chooseName` that the current flags select; reads the object and changes nothing. */
    method SelectName() returns (n: EnvName)
      ensures n == FirstMatch(Precedence(View()), Unknown)
    {
      FirstMatchIsChain(View());
      if electron {
        n := if electronMain then ElectronMain else ElectronRenderer;
      } else if edgeRuntime {
        n := EdgeRuntime;
      } else if cloudflareWorker {
        n := CloudflareWorker;
      } else if serviceWorker {
        n := ServiceWorker;
      } else if worklet {
        n := Worklet;
      } else if webWorker {
        n := WebWorker;
      } else if reactNative {
        n := ReactNative;
      } else if web {
        n := Browser;
      } else if bun {
        n := Bun;
      } else if deno {
        n := Deno;
      } else if nodeWorker {
        n := NodeWorker;
      } else if nodejs {
        n := Node;
      } else if nwjs {
        n := NwJs;
      } else if shell {
        n := Shell;
      } else {
        n := Unknown;
      }
    }

    /** `chooseName`: the first branch whose flag holds names the environment. */
    method ChooseName()
      modifies this
      ensures View() == NameBlock(old(View()))
    {
      var n := SelectName();
      SetName(n);
    }
  }

  /** The detection code from the object literal to `chooseName`, block by block. */
  method Detect(h: Host) returns (runEnv: RunEnv)
    ensures fresh(runEnv) && fresh(runEnv.details)
    ensures runEnv.View() == Run(h)
  {
    runEnv := new RunEnv();
    runEnv.DetectBrowserFlags(h);
    var isNodeLike, pv := runEnv.DetectRuntimeFlags(h);
    runEnv.FillDetails(h, isNodeLike, pv);
    runEnv.ProbeShell();
    runEnv.ChooseName();
  }

  /** The object `Detect` builds holds the closed-form classification of the host. */
  method DetectClassifies(h: Host) returns (runEnv: RunEnv)
    ensures fresh(runEnv)
    ensures runEnv.View() == Classify(h)
  {
    runEnv := Detect(h);
    RunIsClassify(h);
  }
}
