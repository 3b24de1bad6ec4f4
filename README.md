# js-runtime-environment, modelled in Dafny

`js-runtime-environment.js` works out which JavaScript host it is running in. It probes the global scope once, at load time, and fills a `run_env` record:

- nineteen boolean flags: `web`, `window`, `worker`, `web_worker`, `service_worker`, `worklet`, `nodejs`, `bun`, `deno`, `electron`, `electron_main`, `electron_renderer`, `node_main`, `node_worker`, `react_native`, `edge_runtime`, `cloudflare_worker`, `nwjs` and `shell`;
- a `details` record of version strings;
- one canonical `name`, which `chooseName` picks by testing the flags in a fixed order.

A façade of small functions then reads that record and the host. `isBrowser`, `isNode`, `isBun`, `isDeno` and `isElectron` return flags. The worker predicates combine the flags with `instanceof` tests on the worker scopes. `isMacOs`, `isWindows`, `isLinux`, `isIos` and `isAndroid` are cascades of early returns over `platform()`, `safeUA()` and `process.platform`.

The model has six modules:

- `JsStrings` (`js_strings.dfy`): optional values, JavaScript truthiness of a possibly missing string, and `indexOf` with its specification.
- `Host` (`host.dfy`): the host as a value. It has one field per `typeof`, `instanceof` or property test the code makes, the set of detection `try` blocks that throw, and the set of façade property reads that throw.
- `Classifier` (`classifier.dfy`): the closed form of the detection. It gives one predicate per flag and one function per version. `Probe` collects them. `Precedence` is the rule table of `chooseName`, and `FirstMatch` is its first-match-wins walk. `Classify` is the final record. The lemmas state the properties of the result.
- `Blocks` (`blocks.dfy`): the detection code block by block, as functions from the record before a block to the record after it. `RunIsClassify` proves that running the blocks in order yields `Classify`.
- `RunEnvObject` (`run_env.dfy`): the detection as the source runs it. A `RunEnv` object starts as the object literal and has its fields assigned one `try` block at a time. Later blocks read the flags that earlier blocks wrote. Each method is proved to do what its block function does. `Detect` is proved to leave the object holding `Classify(h)`.
- `Facade` (`facade.dfy`): `safeUA`, `platform`, `instOf`, the accessors and the OS predicates, as pure functions of the record and the host, with their lemmas.

A throwing probe never escapes detection. In `Host`, a detection block named in `throwing` assigns nothing, so its flag keeps the literal's `false` (or `null` for a version). A façade read named in `failingGetters` makes the enclosing function return its fallback at that point: `''` for `safeUA`/`platform`, and `false` for `instOf` and the OS predicates.

In the record, the nineteen flags are grouped by detection family (`PageFlags`, `WorkerFlags`, `RuntimeFlags`, `ElectronFlags`, `ThreadFlags`, `EdgeFlags`). Each flag stays readable under its own name (`e.web`, `e.nodeWorker`). The `RunEnv` class keeps them as nineteen separate fields, as the object literal does.

Some consequences of the code that are easy to miss:

- Although `name` starts as `'unknown'` (js-runtime-environment.js:52) and `chooseName` ends in an `'unknown'` branch (js-runtime-environment.js:146), a host with none of the recognised globals is named `'shell'`, with `shell` its only true flag (`BareHostIsShell`), and the `'unknown'` branch is never reached (`NeverUnknown`).
- `shell` is computed from `worker`, not from the individual worker kinds. When the service-worker/web-worker block throws, `worker` stays false even for a detected worklet, so `worklet` and `shell` can both hold (`ThrowingWorkerBlockLeavesShellOpen`, `WorkletCanBeShell`).
- `isWindows` reads `process.platform` before it looks at the user agent. A throwing `process.platform` getter therefore hides a Windows user agent (`WindowsReadsProcessBeforeUserAgent`).
- The OS predicates are not mutually exclusive. A `MacIntel` platform with touch points is both macOS and iOS (`MacIntelTouchIsMacAndIos`). Mobile Safari's user agent says `like Mac OS X`, so an iPhone is also macOS (`IphoneUserAgentIsAlsoMacOs`). An Android browser whose `platform()` is `Linux armv8l` (no truthy `userAgentData.platform`, which would say `Android` and win at line 154) is also Linux (`AndroidLinuxPlatformIsBoth`). Exactly one OS predicate holds for the platforms `Win32` (`WindowsHostIsOnlyWindows`), `MacIntel` with at most one touch point (`MacHostIsOnlyMacOs`), any platform starting with `Linux` and naming no Apple device (`LinuxPrefixHostIsOnlyLinux`), `iPhone` without `process` (`IphoneHostIsOnlyIos`) and `Android` (`AndroidHostIsOnlyAndroid`), when `navigator.platform` agrees, the user agent names no other family and `process.platform` is absent or matches; a `FreeBSD` host satisfies none (`FreeBsdHostIsNoOs`).

## Model

| member | source | states |
|---|---|---|
| `JsStrings.IndexOf` | js-runtime-environment.js:174 | `indexOf` is the first index where the pattern occurs, and -1 exactly when it occurs nowhere |
| `JsStrings.IndexOfZeroIsPrefix` | js-runtime-environment.js:208 | `indexOf(pat) === 0` holds exactly when the string starts with `pat` |
| `Classifier.Precedence` | js-runtime-environment.js:131-147 | definition: the rules of `chooseName` as (flag, name) pairs in branch order; `FirstMatchIsChain` reads it back as the chain |
| `Classifier.FirstMatch` | js-runtime-environment.js:131-147 | definition: the first rule whose flag holds gives the name, the fallback otherwise; `FirstMatchWins` and `FallbackOnlyWhenNothingHolds` state this |
| `Classifier.Probe` | js-runtime-environment.js:44-130 | definition: the closed-form flags and versions every detection block computes, name still `'unknown'`; `BlocksBeforeNameAreProbe` proves the blocks compute it |
| `Classifier.Classify` | js-runtime-environment.js:44-147 | definition: `Probe` with the name `chooseName` picks; `RunIsClassify` and `DetectClassifies` prove the code computes it |
| `Classifier.FirstMatchWins` | js-runtime-environment.js:131-147 | the naming chain picks the label of the first rule that holds, and the fallback when none holds |
| `Classifier.FallbackOnlyWhenNothingHolds` | js-runtime-environment.js:145-146 | when no rule carries the fallback label, the chain returns the fallback exactly when no rule holds |
| `Classifier.FirstMatchIsChain` | js-runtime-environment.js:131-147 | the rule table is the `if … else if …` chain of `chooseName`, branch for branch, Electron first and `'unknown'` last |
| `Classifier.ClassifyNameIsChosen` | js-runtime-environment.js:131-147 | the final name is what `chooseName` picks on the final flags |
| `Classifier.PrecedenceIgnoresName` | js-runtime-environment.js:131-147 | the chain reads only flags, so assigning `name` does not change it |
| `Classifier.LabelsDistinct` | js-runtime-environment.js:132-146 | every canonical name has a non-empty string, and different names have different strings |
| `Classifier.ShellIsFallback` | js-runtime-environment.js:130 | `shell` holds exactly when none of `web`, `worker`, `nodejs` does |
| `Classifier.ThrowingWorkerBlockLeavesShellOpen` | js-runtime-environment.js:69-80 | if the worker block throws, `worker`, `service_worker` and `web_worker` stay false, and `shell` depends on `web` and `nodejs` alone |
| `Classifier.WorkletCanBeShell` | js-runtime-environment.js:66-80 | a worklet scope (a `self` object, no `Window`) whose worker block throws, as a throwing `self.skipWaiting` or `self.clients` getter makes it, is flagged `worklet` and `shell` at once, and named `'worklet'` |
| `Classifier.WorkerFlagsAgree` | js-runtime-environment.js:69-80 | service worker and web worker exclude each other; `worker` implies one of the three kinds, and equals their union when the block completes |
| `Classifier.ElectronFlagsAgree` | js-runtime-environment.js:94-100 | under Electron exactly one of main and renderer holds, the renderer being the context with a `window` object; outside Electron neither holds |
| `Classifier.ElectronNamedFirst` | js-runtime-environment.js:132 | a detected Electron host is named `'electron-renderer'` with a `window` object and `'electron-main'` without, whatever else holds |
| `Classifier.NodeFlags` | js-runtime-environment.js:96-112 | `nodejs` is false when `process.versions.bun` is set; `node_main` and `node_worker` exclude each other and need `nodejs`; `node_worker` needs `isMainThread === false` and no browser-worker flag; with no `isMainThread` Node is the main thread |
| `Classifier.CloudflareFlags` | js-runtime-environment.js:116-120 | a Cloudflare worker has no `Window` constructor and is none of service worker, web worker or worklet |
| `Classifier.DetailsFollowFlags` | js-runtime-environment.js:123-127 | each version except `edge` is, when present, a non-empty string that belongs to its flag; the edge version is `G.EdgeRuntime` as it stands (any string, `''` included) and is `'edge-runtime'` under the edge runtime |
| `Classifier.UnknownUnreachable` | js-runtime-environment.js:130-146 | on any record whose `shell` and `worker` flags are consistent, the chain never reaches `'unknown'` |
| `Classifier.NeverUnknown` | js-runtime-environment.js:130-146 | no host is named `'unknown'` |
| `Classifier.BareHostIsShell` | js-runtime-environment.js:44-147 | a host with none of the recognised globals gets every flag false except `shell`, no versions, and the name `'shell'` |
| `Classifier.BrowserMainThread` | js-runtime-environment.js:55-139 | a page with `window`, `document` and `Window`, no runtime globals and any `navigator` but React Native's is named `'browser'`, with `web` and not `nodejs` |
| `Classifier.NodeMainThread` | js-runtime-environment.js:89-143 | a Node process (neither Bun nor Electron, with any `navigator` but React Native's) on its main thread is named `'node'`, with `nodejs` and `node_main` |
| `Classifier.NodeWorkerThread` | js-runtime-environment.js:103-142 | the same process on a `worker_threads` thread (any `navigator` but React Native's) is named `'node-worker'`, with `node_worker` and not `node_main` |
| `Classifier.ServiceWorkerHost` | js-runtime-environment.js:69-135 | a service-worker scope without `process` or `EdgeRuntime` is named `'service-worker'`, and is not a web worker |
| `Classifier.ElectronRendererHost` | js-runtime-environment.js:92-132 | a process with `versions.electron` and a `window` object is named `'electron-renderer'` |
| `Blocks.WindowBlock` | js-runtime-environment.js:55 | definition: `window` becomes `typeof window === 'object'`; the record is unchanged when the block throws |
| `Blocks.WebBlock` | js-runtime-environment.js:56 | definition: `web` becomes `window` and `document` both objects; unchanged when the block throws |
| `Blocks.ReactNativeBlock` | js-runtime-environment.js:63 | definition: `react_native` becomes `navigator.product === 'ReactNative'`; unchanged when the block throws |
| `Blocks.WorkletBlock` | js-runtime-environment.js:66 | definition: `worklet` becomes the `WorkletGlobalScope` test; unchanged when the block throws |
| `Blocks.WorkersBlock` | js-runtime-environment.js:69-80 | definition: `service_worker`, then `web_worker` reading it, then `worker` reading `worklet` as it stands; unchanged when the block throws |
| `Blocks.DenoBlock` | js-runtime-environment.js:83 | definition: `deno` becomes `Deno.version` truthy; unchanged when the block throws |
| `Blocks.BunBlock` | js-runtime-environment.js:84-87 | definition: `bun` becomes `Bun.version` or `process.versions.bun` truthy; unchanged when the block throws |
| `Blocks.VersionsRead` | js-runtime-environment.js:93 | definition: `pv` is `process.versions` on a Node-like host and `null` otherwise |
| `Blocks.VersionsBlock` | js-runtime-environment.js:92-101 | definition: `electron`, `nwjs` and `nodejs` from `pv`, and the renderer/main split only under Electron; unchanged when the block throws |
| `Blocks.NodeThreadBlock` | js-runtime-environment.js:104-112 | definition: under `nodejs` only, `node_main` from `isMainThread` and `node_worker` from it and the three browser-worker flags as they stand |
| `Blocks.EdgeBlock` | js-runtime-environment.js:115 | definition: `edge_runtime` becomes `G.EdgeRuntime === 'edge-runtime'`; unchanged when the block throws |
| `Blocks.CloudflareBlock` | js-runtime-environment.js:116-120 | definition: `cloudflare_worker` from no `Window`, a Cloudflare global and the three browser-worker flags as they stand; unchanged when the block throws |
| `Blocks.NodeDetailBlock` | js-runtime-environment.js:123 | definition: `details.node` becomes `pv.node` on a Node-like host, else `null`; unchanged when the block throws |
| `Blocks.BunDetailBlock` | js-runtime-environment.js:124 | definition: `details.bun` becomes `Bun.version`, else `pv.bun`, else `null`; unchanged when the block throws |
| `Blocks.DenoDetailBlock` | js-runtime-environment.js:125 | definition: `details.deno` becomes `Deno.version.deno` or `null`; unchanged when the block throws |
| `Blocks.ElectronDetailBlock` | js-runtime-environment.js:126 | definition: `details.electron` becomes `pv.electron` or `null`; unchanged when the block throws |
| `Blocks.EdgeDetailBlock` | js-runtime-environment.js:127 | definition: `details.edge` becomes `G.EdgeRuntime` when it is a string, else `null`; unchanged when the block throws |
| `Blocks.ShellBlock` | js-runtime-environment.js:130 | definition: `shell` becomes none of `web`, `worker`, `nodejs`, read as they stand |
| `Blocks.NameBlock` | js-runtime-environment.js:131-147 | definition: `name` becomes the first-match name of the record's flags |
| `Blocks.RunFlags` | js-runtime-environment.js:44-120 | definition: the flag blocks applied in source order to the object literal; `RunFlagsAssignsFlags` proves it equals the closed form |
| `Blocks.Run` | js-runtime-environment.js:44-147 | definition: every block in source order, ending with `shell` and `chooseName`; `RunIsClassify` proves it equals `Classify` |
| `Blocks.WindowBlockSetsFlag` | js-runtime-environment.js:55 | the `window` block assigns exactly `window`, its closed form |
| `Blocks.WebBlockSetsFlag` | js-runtime-environment.js:56 | the `web` block assigns exactly `web`, its closed form |
| `Blocks.ReactNativeBlockSetsFlag` | js-runtime-environment.js:63 | the React Native block assigns exactly `react_native` |
| `Blocks.WorkletBlockSetsFlag` | js-runtime-environment.js:66 | the worklet block assigns exactly `worklet` |
| `Blocks.WorkersBlockSetsFlags` | js-runtime-environment.js:69-80 | the worker block assigns `service_worker`, then `web_worker` reading it, then `worker`, and nothing else |
| `Blocks.DenoBlockSetsFlag` | js-runtime-environment.js:83 | the Deno block assigns exactly `deno` |
| `Blocks.BunBlockSetsFlag` | js-runtime-environment.js:84-87 | the Bun block assigns exactly `bun` |
| `Blocks.VersionsBlockSetsFlags` | js-runtime-environment.js:92-101 | the `process.versions` block assigns `electron`, `nwjs`, `nodejs`, and the main/renderer split only under Electron |
| `Blocks.NodeThreadBlockSetsFlags` | js-runtime-environment.js:104-112 | the Node thread block assigns `node_main` and `node_worker` only under Node |
| `Blocks.EdgeBlockSetsFlag` | js-runtime-environment.js:115 | the edge block assigns exactly `edge_runtime` |
| `Blocks.CloudflareBlockSetsFlag` | js-runtime-environment.js:116-120 | the Cloudflare block assigns exactly `cloudflare_worker`, reading the browser-worker flags |
| `Blocks.NodeDetailBlockSetsVersion` | js-runtime-environment.js:123 | the block assigns exactly `details.node` |
| `Blocks.BunDetailBlockSetsVersion` | js-runtime-environment.js:124 | the block assigns exactly `details.bun` |
| `Blocks.DenoDetailBlockSetsVersion` | js-runtime-environment.js:125 | the block assigns exactly `details.deno` |
| `Blocks.ElectronDetailBlockSetsVersion` | js-runtime-environment.js:126 | the block assigns exactly `details.electron` |
| `Blocks.EdgeDetailBlockSetsVersion` | js-runtime-environment.js:127 | the block assigns exactly `details.edge` |
| `Blocks.FirstBlocksAssignFlags` | js-runtime-environment.js:55-101 | the blocks from `window` to `process.versions`, run on the object literal, leave every flag they write at its closed form |
| `Blocks.LastBlocksAssignFlags` | js-runtime-environment.js:104-120 | the Node thread, edge and Cloudflare blocks assign their four flags and leave the others alone |
| `Blocks.LastBlocksCompleteProbe` | js-runtime-environment.js:104-120 | after the earlier blocks, the last three flag blocks complete the closed-form flags |
| `Blocks.RunFlagsAssignsFlags` | js-runtime-environment.js:44-120 | all flag blocks in source order turn the object literal into the closed-form flags |
| `Blocks.DetailBlocksFillDetails` | js-runtime-environment.js:123-127 | the five `details` blocks fill in every version and change nothing else |
| `Blocks.BlocksBeforeNameAreProbe` | js-runtime-environment.js:44-130 | every block before `chooseName` together yields the closed-form record, still named `'unknown'` |
| `Blocks.RunIsClassify` | js-runtime-environment.js:44-147 | running the whole detection code yields the closed-form classification |
| `RunEnvObject.RunEnvDetails.constructor` | js-runtime-environment.js:51 | `details` starts with every version `null` |
| `RunEnvObject.RunEnv.constructor` | js-runtime-environment.js:44-53 | the object literal: every flag false, every version `null`, the name `'unknown'` |
| `RunEnvObject.RunEnv.SetWindow` | js-runtime-environment.js:55 | writes `window` and nothing else |
| `RunEnvObject.RunEnv.SetWeb` | js-runtime-environment.js:56 | writes `web` and nothing else |
| `RunEnvObject.RunEnv.SetReactNative` | js-runtime-environment.js:63 | writes `react_native` and nothing else |
| `RunEnvObject.RunEnv.SetWorklet` | js-runtime-environment.js:66 | writes `worklet` and nothing else |
| `RunEnvObject.RunEnv.SetWorkers` | js-runtime-environment.js:73-79 | writes `service_worker`, `web_worker` and `worker` and nothing else |
| `RunEnvObject.RunEnv.SetDeno` | js-runtime-environment.js:83 | writes `deno` and nothing else |
| `RunEnvObject.RunEnv.SetBun` | js-runtime-environment.js:85 | writes `bun` and nothing else |
| `RunEnvObject.RunEnv.SetNodeFamily` | js-runtime-environment.js:94-96 | writes `electron`, `nwjs` and `nodejs` and nothing else |
| `RunEnvObject.RunEnv.SetElectronProcess` | js-runtime-environment.js:98-99 | writes `electron_renderer` and its negation to `electron_main` |
| `RunEnvObject.RunEnv.SetNodeThread` | js-runtime-environment.js:110-111 | writes `node_main` and `node_worker` and nothing else |
| `RunEnvObject.RunEnv.SetEdgeRuntime` | js-runtime-environment.js:115 | writes `edge_runtime` and nothing else |
| `RunEnvObject.RunEnv.SetCloudflareWorker` | js-runtime-environment.js:119 | writes `cloudflare_worker` and nothing else |
| `RunEnvObject.RunEnv.SetShell` | js-runtime-environment.js:130 | writes `shell` and nothing else |
| `RunEnvObject.RunEnv.SetName` | js-runtime-environment.js:132-146 | writes `name` and nothing else |
| `RunEnvObject.RunEnv.ProbeWindow` | js-runtime-environment.js:55 | the object after the `window` block is the block function's record |
| `RunEnvObject.RunEnv.ProbeWeb` | js-runtime-environment.js:56 | the object after the `web` block is the block function's record |
| `RunEnvObject.RunEnv.ProbeReactNative` | js-runtime-environment.js:63 | the object after the React Native block is the block function's record |
| `RunEnvObject.RunEnv.ProbeWorklet` | js-runtime-environment.js:66 | the object after the worklet block is the block function's record |
| `RunEnvObject.RunEnv.ProbeWorkers` | js-runtime-environment.js:69-80 | the object after the worker block is the block function's record; `worker` reads the `worklet` field already written |
| `RunEnvObject.RunEnv.ProbeDeno` | js-runtime-environment.js:83 | the object after the Deno block is the block function's record |
| `RunEnvObject.RunEnv.ProbeBun` | js-runtime-environment.js:84-87 | the object after the Bun block is the block function's record |
| `RunEnvObject.RunEnv.ProbeProcessVersions` | js-runtime-environment.js:92-101 | returns `pv` (`process.versions` on a Node-like host, `null` when the block throws) and leaves the block function's record |
| `RunEnvObject.RunEnv.ProbeNodeThread` | js-runtime-environment.js:104-112 | the object after the Node thread block is the block function's record |
| `RunEnvObject.RunEnv.ProbeEdgeRuntime` | js-runtime-environment.js:115 | the object after the edge block is the block function's record |
| `RunEnvObject.RunEnv.ProbeCloudflare` | js-runtime-environment.js:116-120 | the object after the Cloudflare block is the block function's record |
| `RunEnvObject.RunEnv.FillNodeVersion` | js-runtime-environment.js:123 | the object after the `details.node` block is the block function's record |
| `RunEnvObject.RunEnv.FillBunVersion` | js-runtime-environment.js:124 | the object after the `details.bun` block is the block function's record |
| `RunEnvObject.RunEnv.FillDenoVersion` | js-runtime-environment.js:125 | the object after the `details.deno` block is the block function's record |
| `RunEnvObject.RunEnv.FillElectronVersion` | js-runtime-environment.js:126 | the object after the `details.electron` block is the block function's record |
| `RunEnvObject.RunEnv.FillEdgeVersion` | js-runtime-environment.js:127 | the object after the `details.edge` block is the block function's record |
| `RunEnvObject.RunEnv.ProbeShell` | js-runtime-environment.js:130 | `shell` is assigned from the `web`, `worker` and `nodejs` fields as they stand |
| `RunEnvObject.RunEnv.DetectBrowserFlags` | js-runtime-environment.js:55-80 | the blocks from `window` to the worker block, with `hasSelf` and `hasImportScripts`, compose as their block functions do |
| `RunEnvObject.RunEnv.DetectRuntimeFlags` | js-runtime-environment.js:83-120 | the blocks from Deno to Cloudflare compose as their block functions do, and yield `isNodeLike` and `pv` |
| `RunEnvObject.RunEnv.FillDetails` | js-runtime-environment.js:123-127 | the five `details` blocks compose as their block functions do |
| `RunEnvObject.RunEnv.SelectName` | js-runtime-environment.js:131-147 | the branch taken is the first-match name of the object's flags; the object is not changed |
| `RunEnvObject.RunEnv.ChooseName` | js-runtime-environment.js:131-147 | `chooseName` writes the first-match name and nothing else |
| `RunEnvObject.Detect` | js-runtime-environment.js:44-147 | a fresh object run through every block in source order holds the block-by-block record |
| `RunEnvObject.DetectClassifies` | js-runtime-environment.js:44-147 | the object detection builds holds the closed-form classification of the host |
| `Facade.Mentions` | js-runtime-environment.js:190 | definition: `s.indexOf(pat) !== -1`, the substring test of lines 174, 190, 200, 209 and 231 |
| `Facade.ProcessPlatformIs` | js-runtime-environment.js:191 | definition: `typeof process === 'object' && process && process.platform === p`, read without throwing, as at lines 191, 199, 210 and 232 |
| `Facade.ProcessPlatformThrows` | js-runtime-environment.js:199 | definition: `process` exists and reading `process.platform` throws, which ends an OS cascade with `false` |
| `Facade.NamesAppleMobile` | js-runtime-environment.js:221 | definition: the regular expression test of `plat` for `iPad`, `iPhone` or `iPod`, as three substring tests |
| `Facade.SafeUA` | js-runtime-environment.js:150 | definition: `navigator.userAgent`, or `''` without one or when the read throws; `SafeUAIsUserAgentOrEmpty` states it |
| `Facade.Platform` | js-runtime-environment.js:151-159 | definition: a truthy `userAgentData.platform`, else a truthy `navigator.platform`, else `''`; `PlatformPrecedence` states it |
| `Facade.InstOf` | js-runtime-environment.js:160-166 | definition: the scope constructor exists and `self` is an instance of it, false when the lookup throws |
| `Facade.IsBrowser` | js-runtime-environment.js:169 | definition: the `web` flag; `AccessorsReportDetection` ties it to detection |
| `Facade.IsNode` | js-runtime-environment.js:170 | definition: the `nodejs` flag; `AccessorsReportDetection`, `BunIsNotNode` |
| `Facade.IsBun` | js-runtime-environment.js:171 | definition: the `bun` flag; `AccessorsReportDetection` |
| `Facade.IsDeno` | js-runtime-environment.js:172 | definition: the `deno` flag; `AccessorsReportDetection` |
| `Facade.IsElectron` | js-runtime-environment.js:173 | definition: the `electron` flag; `AccessorsReportDetection` |
| `Facade.IsWebWorker` | js-runtime-environment.js:177 | definition: `service_worker`, `web_worker`, or a shared or dedicated worker scope |
| `Facade.IsDedicatedWorker` | js-runtime-environment.js:178-181 | definition: the dedicated scope, else `web_worker` outside a shared scope |
| `Facade.IsSharedWorker` | js-runtime-environment.js:182 | definition: the shared worker scope |
| `Facade.IsServiceWorker` | js-runtime-environment.js:183 | definition: `service_worker` or the service-worker scope |
| `Facade.IsMacOs` | js-runtime-environment.js:185-194 | definition: the early-return cascade of `isMacOs`; `MacHostIsOnlyMacOs`, `UserAgentNamesOs` |
| `Facade.IsWindows` | js-runtime-environment.js:195-203 | definition: the early-return cascade of `isWindows`, `process.platform` before the user agent; `WindowsHostIsOnlyWindows`, `WindowsReadsProcessBeforeUserAgent` |
| `Facade.IsLinux` | js-runtime-environment.js:204-213 | definition: the early-return cascade of `isLinux`; `LinuxPlatformPrefix`, `LinuxPrefixHostIsOnlyLinux` |
| `Facade.IsIos` | js-runtime-environment.js:214-225 | definition: the early-return cascade of `isIos`, with the iPadOS `MacIntel` test; `AppleMobilePlatformIsIos`, `IphoneHostIsOnlyIos` |
| `Facade.IsAndroid` | js-runtime-environment.js:226-235 | definition: the early-return cascade of `isAndroid`; `AndroidHostIsOnlyAndroid` |
| `Facade.IsJsDom` | js-runtime-environment.js:174 | `isJsDom()` holds exactly when `jsdom` occurs somewhere in `safeUA()` |
| `Facade.AccessorsReportDetection` | js-runtime-environment.js:169-173 | `isBrowser`, `isNode`, `isBun`, `isDeno` and `isElectron` hold exactly when detection's closed-form flag does |
| `Facade.BunIsNotNode` | js-runtime-environment.js:170 | a process that reports Bun is never `isNode()` |
| `Facade.DedicatedAndSharedAreWebWorkers` | js-runtime-environment.js:177-182 | `isDedicatedWorker()` and `isSharedWorker()` each imply `isWebWorker()` |
| `Facade.SharedWithoutDedicatedIsNotDedicated` | js-runtime-environment.js:178-181 | in a shared scope that is not a dedicated one, the `web_worker` fallback does not make `isDedicatedWorker()` hold |
| `Facade.ServiceWorkerFacade` | js-runtime-environment.js:177-183 | a detected service worker is `isWebWorker()` and `isServiceWorker()`, and `isDedicatedWorker()` only through the dedicated scope |
| `Facade.SafeUAIsUserAgentOrEmpty` | js-runtime-environment.js:150 | `safeUA()` is `''` without a readable user agent, and a non-empty result is the navigator's user agent |
| `Facade.PlatformPrecedence` | js-runtime-environment.js:151-159 | `userAgentData.platform` wins when truthy, else `navigator.platform` when truthy, else `''`; a non-empty result is one of the two |
| `Facade.NoSignalNoOs` | js-runtime-environment.js:185-235 | with no platform, no user agent, no `navigator.platform` and no `process.platform`, every OS predicate is false |
| `Facade.MacIntelTouchIsMacAndIos` | js-runtime-environment.js:185-225 | a `MacIntel` platform with more than one touch point is both `isMacOs()` and `isIos()` |
| `Facade.LinuxPlatformPrefix` | js-runtime-environment.js:204-213 | a platform that starts with `Linux` makes `isLinux()` hold |
| `Facade.UserAgentNamesOs` | js-runtime-environment.js:185-235 | ` Mac `, ` Linux `, ` Windows ` or ` Android ` in the user agent makes that OS predicate hold, unless a throwing getter ends the cascade first |
| `JsStrings.IndexOfAbsent` | js-runtime-environment.js:174 | a string in which the pattern matches at no position, compared character by character, has `indexOf` -1 |
| `JsStrings.MatchesFromOccurs` | js-runtime-environment.js:174 | a character-by-character match at a position is an occurrence there |
| `Facade.EmptyMentionsNothing` | js-runtime-environment.js:185-235 | the empty user agent or platform mentions no pattern |
| `Facade.NamesNoAppleDevice` | js-runtime-environment.js:221 | a platform in which none of `iPad`, `iPhone`, `iPod` is found fails the device regular expression `/iPad…iPod/` |
| `Facade.DoesNotStartWithLinux` | js-runtime-environment.js:208 | a platform not starting with `L` fails `indexOf('Linux') === 0` |
| `Facade.AppleMobilePlatformIsIos` | js-runtime-environment.js:214-225 | a readable `navigator.platform` naming an iPad, iPhone or iPod makes `isIos()` hold, whatever the platform and user agent say |
| `Facade.WindowsHostIsOnlyWindows` | js-runtime-environment.js:185-235 | platform `Win32`, a user agent naming no other OS and `process.platform` absent or `win32`: `isWindows()` holds and the other four OS predicates do not |
| `Facade.MacHostIsOnlyMacOs` | js-runtime-environment.js:185-235 | platform `MacIntel` with at most one touch point, a user agent naming no other OS, `process.platform` absent or `darwin`: only `isMacOs()` holds |
| `Facade.LinuxPrefixHostIsOnlyLinux` | js-runtime-environment.js:185-235 | any platform starting with `Linux` and naming no Apple device, a user agent naming no other OS, `process.platform` absent or `linux`: only `isLinux()` holds |
| `Facade.IphoneHostIsOnlyIos` | js-runtime-environment.js:185-235 | platform `iPhone`, a user agent naming no OS, no `process`: only `isIos()` holds |
| `Facade.AndroidHostIsOnlyAndroid` | js-runtime-environment.js:185-235 | platform `Android`, a user agent naming no other OS, `process.platform` absent or `android`: only `isAndroid()` holds |
| `Facade.FreeBsdHostIsNoOs` | js-runtime-environment.js:185-235 | platform `FreeBSD`, a user agent naming none of the four, `process.platform` absent or `freebsd`: no OS predicate holds |
| `Facade.IphoneUserAgentIsAlsoMacOs` | js-runtime-environment.js:185-225 | an iPhone whose user agent says `like Mac OS X` is both `isIos()` and `isMacOs()` |
| `Facade.AndroidLinuxPlatformIsBoth` | js-runtime-environment.js:204-235 | a `platform()` of `Linux armv8l` (no truthy `userAgentData.platform`) with an Android user agent is both `isLinux()` and `isAndroid()` |
| `Facade.WindowsReadsProcessBeforeUserAgent` | js-runtime-environment.js:195-203 | a throwing `process.platform` getter makes `isWindows()` false unless the platform string already said Windows |

## Left out

- The UMD wrapper and the returned API object (js-runtime-environment.js:1-29 and 237-256): module registration and export, with no logic of the classifier.
- `getGlobal` (js-runtime-environment.js:33-40): the global object is the `Host` value itself.
- `typeof`, `instanceof` and `!!` are not modelled as JavaScript semantics. Each test the code makes is a boolean or optional field of `Host`, chosen by the caller.
- `require('worker_threads')` (js-runtime-environment.js:106-109) is the optional boolean `Host.isMainThread`. A missing `require`, a throwing load and a non-boolean field all count as `None`.
- Versions and platform strings are modelled as strings or absent. A truthy non-string value (a number, an object) in `process.versions`, `Bun.version` or `navigator.platform` is not modelled.
- Blocks.VersionsBlock: a block that throws is modelled as throwing before its first assignment, with `pv` left `null` (`ProcessVersions` is `None`). In the source, `pv` is assigned at line 93 before any `run_env` field, so a `pv.electron`, `pv.nw`, `pv.node` or `pv.bun` getter that throws later keeps the flags assigned before it and leaves `pv` holding `process.versions`; lines 123, 124 and 126 can then still fill `details.node`, `details.bun` and `details.electron`, which the model leaves `null`. `typeof window` at line 98 cannot throw. The other blocks have nothing after their first assignment that can throw on its own.
- `Host.throwing` may name a detection block that cannot throw on that host, such as the worker block on a host without `self`, whose tests stop at `hasSelf &&` (lines 70 and 75). Lemmas about every host therefore also cover such hosts; the example hosts of the lemmas do not use them.
- The regular expression `/iPad|iPhone|iPod/` is modelled as three substring tests, which is what that alternation of literals matches.
- `navigator.maxTouchPoints` is an optional integer. Comparing a non-number with `> 1` is not modelled.
- Reading `navigator.userAgentData` and its `platform` is one fallible read in the façade, and so is `G[ctorName]` followed by `instanceof` in `instOf`.
