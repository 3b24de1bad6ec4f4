/**
 * The ambient host as the classifier observes it. Every `typeof`,
 * `instanceof` and property test that the detector performs on the global
 * scope is one field of `Host`, so a host is a plain value that callers
 * choose instead of state the code discovers.
 */
module Host {
  import opened JsStrings

  /** One `try { … } catch (e) {}` block of the detection code. */
  datatype Block =
    | WindowProbe          // `run_env.window`
    | WebProbe             // `run_env.web`
    | SelfProbe            // `hasSelf`
    | ImportScriptsProbe   // `hasImportScripts`
    | ReactNativeProbe     // `run_env.react_native`
    | WorkletProbe         // `run_env.worklet`
    | WorkerProbe          // service worker, web worker and `worker`
    | DenoProbe            // `run_env.deno`
    | BunProbe             // `run_env.bun`
    | NodeLikeProbe        // `isNodeLike`
    | VersionsProbe        // `pv`, electron, nwjs, nodejs and the Electron split
    | EdgeProbe            // `run_env.edge_runtime`
    | CloudflareProbe      // `run_env.cloudflare_worker`
    | NodeDetail           // `details.node`
    | BunDetail            // `details.bun`
    | DenoDetail           // `details.deno`
    | ElectronDetail       // `details.electron`
    | EdgeDetail           // `details.edge`

  /** The worker global-scope constructors that the façade checks with `instanceof`. */
  datatype Scope = DedicatedScope | SharedScope | ServiceScope

  /** A host property whose read can throw when a façade predicate evaluates it. */
  datatype Getter =
    | UserAgentGetter                // `navigator.userAgent`
    | UserAgentDataGetter            // `navigator.userAgentData`
    | NavigatorPlatformGetter        // `navigator.platform`
    | MaxTouchPointsGetter           // `navigator.maxTouchPoints`
    | ProcessPlatformGetter          // `process.platform`
    | ScopeGetter(scope: Scope)      // `G[ctorName]` or the `instanceof` test on it

  datatype UserAgentData = UserAgentData(platform: Option<string>)

  /** The `navigator` object, present when `typeof navigator === 'object'` and it is not null. */
  datatype Navigator = Navigator(
    product: Option<string>,
    userAgent: Option<string>,
    userAgentData: Option<UserAgentData>,
    platform: Option<string>,
    maxTouchPoints: Option<int>)

  /** The fields of `process.versions` that the detector inspects. */
  datatype Versions = Versions(
    electron: Option<string>,
    nw: Option<string>,
    node: Option<string>,
    bun: Option<string>)

  /** The `process` object, present when `typeof process === 'object'` and it is not null. */
  datatype Process = Process(versions: Option<Versions>, platform: Option<string>)

  /** `Deno.version`, an object whose `deno` field is the runtime's version string. */
  datatype DenoVersion = DenoVersion(deno: Option<string>)

  /** The `Deno` global, present when truthy. */
  datatype DenoGlobal = DenoGlobal(version: Option<DenoVersion>)

  /** The `Bun` global, present when truthy. */
  datatype BunGlobal = BunGlobal(version: Option<string>)

  /**
   * Everything the detector and the façade read from the host.
   * `workletScope` and the `ScopeConstructor` values are `None` when the
   * constructor is not defined and `Some(b)` when it is, `b` being the
   * outcome of `self instanceof` it (false when there is no `self`).
   * `isMainThread` is the boolean `require('worker_threads').isMainThread`,
   * `None` when `require` is missing, the load throws or the field is not a
   * boolean. `edgeRuntime` is `G.EdgeRuntime` when it is a string.
   * `throwing` names the detection blocks that throw before assigning
   * anything; `failingGetters` the properties whose read throws in the
   * façade.
   */
  datatype Host = Host(
    windowIsObject: bool,            // typeof window === 'object'
    documentIsObject: bool,          // typeof document === 'object'
    selfIsObject: bool,              // typeof self === 'object'
    importScriptsIsFunction: bool,   // typeof importScripts === 'function'
    windowConstructorDefined: bool,  // typeof Window !== 'undefined'
    skipWaitingIsFunction: bool,     // typeof self.skipWaiting === 'function'
    clientsIsObject: bool,           // typeof self.clients === 'object'
    workletScope: Option<bool>,
    dedicatedScope: Option<bool>,
    sharedScope: Option<bool>,
    serviceScope: Option<bool>,
    navigator: Option<Navigator>,
    deno: Option<DenoGlobal>,
    bun: Option<BunGlobal>,
    process: Option<Process>,
    isMainThread: Option<bool>,
    edgeRuntime: Option<string>,
    webSocketPairIsFunction: bool,   // typeof G.WebSocketPair === 'function'
    htmlRewriterIsFunction: bool,    // typeof G.HTMLRewriter === 'function'
    throwing: set<Block>,
    failingGetters: set<Getter>)

  /** Detection block `b` runs to its end instead of throwing. */
  predicate Completes(h: Host, b: Block) {
    b !in h.throwing
  }

  /** Reading property `g` in the façade succeeds. */
  predicate Readable(h: Host, g: Getter) {
    g !in h.failingGetters
  }

  /** The worker global-scope constructor `s` as the host defines it. */
  function ScopeConstructor(h: Host, s: Scope): Option<bool> {
    match s
    case DedicatedScope => h.dedicatedScope
    case SharedScope => h.sharedScope
    case ServiceScope => h.serviceScope
  }

  /** A host that exposes none of the globals the detector looks for and never throws. */
  const Bare: Host := Host(
    false, false, false, false, false, false, false,
    None, None, None, None,
    None, None, None, None, None,
    None, false, false,
    {}, {})
}
