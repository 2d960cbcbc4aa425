# canvasLoader, modelled in Dafny

`canvas-loader.js` defines one function, `canvasLoaderReplace(el, options)`.
It builds a spinner from eight dots on a 2D canvas and swaps it in for a DOM
element. This project models and proves three parts of it:

- **Option defaulting.** A literal defaults record holds seven settings. Six
  of them are overwritten in place by the truthy values of an `options`
  object. `className` has no override line. A `null` argument throws a
  TypeError, because `typeof null == "object"`. This is module `Options`,
  built on module `JsValues`, which covers `typeof`, truthiness and property
  reads.
- **The dot opacity machine.** Every opacity is a multiple of 1/8, so the
  model counts opacities in eighths, from 0 to 8. One step subtracts an
  eighth and snaps a negative result back to 8. Dot i starts at i/8. Module
  `Opacity` proves the following:
  - the step is decrement modulo 9;
  - the trajectory has a closed form;
  - the period is exactly nine;
  - the eight dots' phases stay pairwise distinct forever.
- **The repaint.** Module `Canvas` models the 2D context as an append-only
  log of calls. An interpreter turns a log into what reaches the surface.
  Module `Loader` models the `Dot` and `CanvasLoader` objects as classes that
  append to that log. `Replacement` is the state of one call: the merged
  settings plus the `loaders` array. `CanvasLoaderReplace` is the call
  itself. The proofs show:
  - a repaint clears the square and fills the background first;
  - it then visits the dots in index order;
  - each dot's opacity is updated before that dot is drawn;
  - each dot paints exactly its own circle, at its new opacity;
  - a call registers exactly one loader, at index 1, and only when the
    context is truthy.

With eight dots one might expect an eight-repaint cycle; the code gives
nine, because the snap-back to full opacity is a state of its own. Dot 1
starts at 1/8. The first repaint takes it to 0, and the second snaps it
back to full opacity. Four repaints leave it at 6/8
(`Opacity.FirstDotTrajectory`). Every dot's cycle is nine repaints long
(`Opacity.PeriodIsNine`).

## Model

| member | source | states |
|---|---|---|
| Options.Merged | canvas-loader.js:57-64 | Throws exactly when options is null. Any non-object argument leaves the record unchanged. For an object, each of the six overridable settings takes the supplied value when it is truthy and keeps its current value otherwise. className always keeps its value. |
| Options.NonObjectKeepsDefaults | canvas-loader.js:47-57 | Without an options object (undefined, a string, a number, a function) the result is the seven defaults exactly. |
| Options.ClassNameIsFixed | canvas-loader.js:52 | className is "canvasLoader" after any merge that does not throw. |
| Options.FalsyFallsBack | canvas-loader.js:58-63 | For each overridable key, a truthy supplied value wins and a falsy one (0, "", false, NaN, null, missing) falls back to the default. |
| Options.MergeIdempotent | canvas-loader.js:57-64 | Merging the same options a second time changes nothing. |
| Options.Settings.constructor | canvas-loader.js:47-55 | The new record holds the seven literal defaults. |
| Options.Settings.ApplyOptions | canvas-loader.js:57-64 | Reports a throw exactly for null and then leaves the record as it was. Otherwise the new record is the merge of the old one with the options. |
| Opacity.Step | canvas-loader.js:128-131 | The opacity update keeps every opacity within 0..8 eighths. |
| Opacity.StepIsDecrementModNine | canvas-loader.js:128-131 | On 0..8 the update is decrement modulo 9. |
| Opacity.StepMatchesReal | canvas-loader.js:128-131 | The update on eighths agrees with "subtract 1/8, snap below zero to 1" on reals, and the result lies in [0, 1]. |
| Opacity.StepIsBijection | canvas-loader.js:128-131 | The update is injective on 0..8, and every state has a predecessor. |
| Opacity.Iterate | canvas-loader.js:128-131 | The opacity after any number of updates stays within 0..8 eighths. |
| Opacity.IterateClosedForm | canvas-loader.js:128-131 | After n updates, a dot that started at e eighths is at (e - n) mod 9. |
| Opacity.PeriodIsNine | canvas-loader.js:128-131 | A dot is back at its opacity after nine updates, and after no fewer. |
| Opacity.PhasesStayDistinct | canvas-loader.js:128-131 | Two dots that start at different opacities never share an opacity after the same number of updates. |
| Opacity.FirstDotTrajectory | canvas-loader.js:128-131 | Dot 1 goes 1/8, then 0, then back to 8/8; after four updates it is at 6/8. |
| Loader.Dot.constructor | canvas-loader.js:112-118 | A dot holds its given position, radius, color and opacity. |
| Loader.Dot.ChangeOpacity | canvas-loader.js:128-131 | The dot's opacity takes one update step, and nothing else about the dot changes. |
| Loader.Dot.Draw | canvas-loader.js:120-126 | Appends exactly five commands: begin a path, set globalAlpha to the dot's opacity, set fillStyle to its color, add its circle offset by half the loader's radius, fill. |
| Loader.DotPaintsOwnCircle | canvas-loader.js:120-126 | Whatever alpha, style and path the context held, a dot's draw paints exactly one filled circle, with the dot's own opacity and color. |
| Loader.DotsPaintInOrder | canvas-loader.js:106-109 | Drawing dots one after another paints each dot's own circle in index order, with no state leaking from one dot to the next. |
| Loader.DrawPaints | canvas-loader.js:96-110 | From any context state, a repaint shows the cleared square, then the background at full opacity, then every dot's circle at its updated opacity, in index order. |
| Loader.DrawTraceLayout | canvas-loader.js:106-109 | The dot part of a repaint holds five commands per dot, and dot k's commands occupy positions 5k to 5k+4. |
| Loader.CanvasLoader.constructor | canvas-loader.js:79-94 | Stores the context, radius, color and dot radius, and puts the centre at radius/2. Creates eight distinct fresh dots; dot i is at the i-th position with opacity i/8. |
| Loader.CanvasLoader.Draw | canvas-loader.js:96-110 | The log grows by the background commands, followed by every dot's commands at its updated opacity in index order. Every dot's opacity takes exactly one step. The loader stays valid, so dot i remains i/8 stepped once per repaint. |
| Loader.CanvasLoader.DrawBackground | canvas-loader.js:98-103 | Appends clearRect over the square, then globalAlpha 1, then fillStyle set to the background, then fillRect over the square. |
| Loader.CanvasLoader.FillInDots | canvas-loader.js:106-109 | For each dot in index order, updates its opacity and then draws it at the new opacity. Each dot's opacity moves exactly one step. |
| Loader.OpacitiesDistinct | canvas-loader.js:90-93 | At every point in a loader's life its eight dots hold eight different opacities. |
| Loader.Replacement.constructor | canvas-loader.js:144-145 | With a truthy context, exactly one loader is created from the merged settings and stored at index 1, making the array length 2. Without one, the array stays empty. |
| Loader.Replacement.Tick | canvas-loader.js:73-77 | Repaints every loader in the array, so loader 1 gets exactly one repaint trace. With no loader, nothing changes. |
| Loader.CanvasLoaderReplace | canvas-loader.js:41-147 | The option merge throws exactly when options is null. Otherwise the settings are the merge of the defaults with the options. A loader is registered at index 1 exactly when the context is truthy. It is built from the merged radius, dot radius and color, has not repainted yet, and starts with dot i at i/8. |

## Left out

- Loader.CanvasLoaderReplace: this member requires that a truthy radius or dotRadius option be a number. The code also accepts strings that JavaScript coerces in `radius/2`, and the model does not cover that coercion.
- Loader.CanvasLoaderReplace: the TypeError that `el.parentNode.replaceChild(canvas, el)` raises is not modelled. It happens when `el` is null or undefined or has no parent. It comes after the loader is registered and the timer started, so the loader keeps repainting.
- Dot positions come from `Math.cos`/`Math.sin`, which the model does not compute. The positions are a parameter of the loader's constructor.
- Numbers are exact reals, not binary64. Every opacity the code produces is a multiple of 1/8, and those are exact in binary64, so the opacity machine loses nothing.
- The DOM work is left out: `document.createElement`, `setAttribute` (width, height, id, className) and `el.parentNode.replaceChild`. The model replaces `getContext("2d")` with a context that may be null. Where canvas is unsupported, `canvas.getContext` is undefined and line 141 throws a TypeError before the `!!ctx` test; that throw is not modelled.
- The timer is left out. `setInterval(draw, 1000/opts.fps)` becomes `Replacement.Tick`, which the caller invokes once per tick, so `fps` is merged but never used.
- Each dot's `parent` back-reference is not modelled. A dot's draw instead receives the loader's context and radius, which are the only things it reads through `parent`.
- The loader's `opacity`, `numDots` and `degrees` fields are not modelled. `opacity` is never read, and the other two are the constant 8 and an angle used only for positions.
- The loops use an undeclared global `i`, and the model does not capture that sharing. A for-in loop enumerates keys independently of that variable's value, so the sharing does not change the visit order.
- The modelled context never rejects a call and never throws. A real one differs in two ways the model does not capture:
  - `arc` with a negative radius throws an IndexSizeError (line 124). With a negative `dotRadius` option, every repaint then stops right after dot 1's opacity update (line 107). Only dot 1 ever moves, so `Loader.OpacitiesDistinct`, `Loader.CanvasLoader.Draw`, `Loader.CanvasLoader.FillInDots` and `Loader.Dot.Draw` hold only for a dot radius of zero or more.
  - A real context ignores a `fillStyle` value it cannot parse. With an invalid `color` option, every dot is then filled in the background's style, which the background commands set just before. So `Loader.DotPaintsOwnCircle`, `Loader.DotsPaintInOrder` and `Loader.DrawPaints` describe what is painted only when `color` is a valid CSS color.
- The arc angles (0 to 2π, anticlockwise) are the same in every call and are not recorded. The context ignores a globalAlpha outside [0, 1], and the loader never produces one.
