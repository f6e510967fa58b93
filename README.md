# CameraCapture parameter negotiation, in Dafny

This project models the part of `CameraCapture` (MediaSample's wrapper around
the Android camera) that computes something rather than calling the platform:

- choosing the still-picture size: the supported size of largest area;
- choosing the preview size (`chooseOptimalSize`): keep the sizes with the
  picture's aspect ratio whose height is at least the wanted minimum width,
  take the smallest one, and fall back to the first supported size;
- the display-orientation arithmetic of `determineDisplayOrientation`;
- the small state machine on the capture object: the camera facing and its
  toggle, the flash-mode code with its string mapping, and the focus-mode
  priority that sets the auto-focus flag;
- the parameter-negotiation steps of `open` that tie these together.

Modules:

- `Optional` (`optional.dfy`): `Option`, for a null reference or for a call
  that throws an exception that `open` catches.
- `Sizes` (`sizes.dfy`): `Size`, the area comparator, `Collections.max` and
  `Collections.min` with it, the preview-size filter and `ChooseOptimalSize`.
  `ChooseOptimalSize` keeps the source's loop and is proved equal to the
  function `PreviewSizeFor`. The lemmas about `PreviewSizeFor` state what
  the caller gets.
- `Orientation` (`orientation.dfy`): the rotation switch, Java's truncating
  `%`, and the front- and back-camera formulas.
- `Capture` (`capture.dfy`): the constants, `getCameraFacing`, the
  flash-mode and focus-mode mappings, `Camera.Parameters` as a record, and
  the class `CameraCapture`. Its fields are `mCameraFacing`, `mFlashMode`,
  `mIsAutoFocusSupport`, `mPictureSize`, `mPreviewSize` and `mCamera`.

Modelling choices:

- Java `int` products in the aspect test wrap to 32 bits, and the model
  shows this (`Int32`). `AcceptableIsExactAspect` proves the test is
  exact cross-multiplication when every side is at most 46340 pixels.
  `AcceptableWrapsForHugeSizes` gives a size beyond that bound that passes
  against a different ratio. Areas are compared as `long`, where the product
  of two ints cannot overflow, so they are unbounded `int`s.
- Java's `%` truncates toward zero, and the model uses that remainder
  (`JavaRem360`). For the non-negative operands a sensor orientation gives,
  it equals Dafny's `%`.
- `Collections.max` and `Collections.min` replace the candidate only when the
  comparator returns a strictly larger (smaller) value. Ties therefore go to
  the first such element, and the model says so.
- `Camera.Parameters` is a value. `getParameters` hands out a copy and
  `setParameters` installs one, so the writes `setupFlashMode` and
  `setupFocusMode` make to their local object become an updated value that
  they return.
- `open` catches every exception. `Collections.max` on an empty list and
  `choices.get(0)` on an empty list throw, so both become `None`. `Open`
  then stops with the state reached before the throw.
- Line 223 passes the constant `FLASH_MODE_AUTO` as the focus mode. Its
  platform string is `"auto"`, the same as the focus value `FOCUS_MODE_AUTO`,
  so the model keeps the literal constant. `FocusChoice` proves that the
  mode it sets is one of the supported ones.

Further facts about the code that the model keeps:

- Sizes are ordered lists (`seq`).
- An empty size list ends in an exception that `open` catches.
- A preview fallback is only logged.
- `wantedMinWidth` may be any int. It is compared with the candidate's
  height (line 187).

## Model

| member | source | states |
|---|---|---|
| `Sizes.CompareByArea` | app/src/main/java/com/ymlion/mediasample/capture/CameraCapture.java:346-349 | the comparator returns -1, 0 or 1, and its sign is the order of the two areas in both directions |
| `Sizes.Area` | app/src/main/java/com/ymlion/mediasample/capture/CameraCapture.java:348 | the `long` area width times height; no contract of its own, its order is stated by `Sizes.CompareByArea` |
| `Sizes.CompareByAreaIsPreorder` | app/src/main/java/com/ymlion/mediasample/capture/CameraCapture.java:346-349 | the comparator is antisymmetric in sign, reflexive and transitive |
| `Sizes.MaxIndex` | app/src/main/java/com/ymlion/mediasample/capture/CameraCapture.java:84-85 | Collections.max with the area comparator picks an element of largest area, and every earlier element is strictly smaller |
| `Sizes.MinIndex` | app/src/main/java/com/ymlion/mediasample/capture/CameraCapture.java:193 | Collections.min with the area comparator picks an element of smallest area, and every earlier element is strictly larger |
| `Sizes.MaxByArea` | app/src/main/java/com/ymlion/mediasample/capture/CameraCapture.java:84-85 | the picture size fails exactly on an empty list; otherwise it is a member of the list, no element has a larger area, and any other element of equal area comes after an earlier occurrence of it |
| `Sizes.Int32` | app/src/main/java/com/ymlion/mediasample/capture/CameraCapture.java:186 | int multiplication yields a 32-bit value congruent to the exact product modulo 2^32, equal to it when it fits |
| `Sizes.Acceptable` | app/src/main/java/com/ymlion/mediasample/capture/CameraCapture.java:186-187 | the filter: equal wrapped int cross-products and height at least the wanted minimum width; no contract of its own, its meaning is stated by `Sizes.AcceptableIsExactAspect` and `Sizes.AcceptableWrapsForHugeSizes` |
| `Sizes.AcceptableIsExactAspect` | app/src/main/java/com/ymlion/mediasample/capture/CameraCapture.java:186-187 | for sides of at most 46340 pixels the filter holds iff the cross-products are equal and the height is at least the wanted minimum width |
| `Sizes.AcceptableWrapsForHugeSizes` | app/src/main/java/com/ymlion/mediasample/capture/CameraCapture.java:186 | a 65536x65536 choice passes the filter against a 131072x65536 picture although its exact aspect ratio differs |
| `Sizes.Suitable` | app/src/main/java/com/ymlion/mediasample/capture/CameraCapture.java:184-190 | the `results` list, never longer than `choices`; its contents are stated by `Sizes.SuitableMembers`, `Sizes.SuitableEmpty` and `Sizes.SuitableMinimum` |
| `Sizes.SuitableMembers` | app/src/main/java/com/ymlion/mediasample/capture/CameraCapture.java:184-190 | the list built by the loop holds exactly the choices that pass the filter |
| `Sizes.SuitableEmpty` | app/src/main/java/com/ymlion/mediasample/capture/CameraCapture.java:184-192 | the list built by the loop is empty iff no choice passes the filter |
| `Sizes.SuitableMinimum` | app/src/main/java/com/ymlion/mediasample/capture/CameraCapture.java:184-193 | the minimum of the built list is a passing choice of least area among passing choices, and every passing choice before it is strictly larger |
| `Sizes.PreviewSizeFor` | app/src/main/java/com/ymlion/mediasample/capture/CameraCapture.java:183-197 | the value chooseOptimalSize returns; no contract of its own, its properties are stated by `Sizes.PreviewSizeIsAChoice`, `Sizes.PreviewSizeIsSmallestSuitable` and `Sizes.PreviewSizeFallsBack` |
| `Sizes.PreviewSizeIsAChoice` | app/src/main/java/com/ymlion/mediasample/capture/CameraCapture.java:183-197 | chooseOptimalSize fails iff choices is empty, and otherwise returns an element of choices |
| `Sizes.PreviewSizeIsSmallestSuitable` | app/src/main/java/com/ymlion/mediasample/capture/CameraCapture.java:185-193 | if some choice passes the filter, the result passes it, no passing choice has a smaller area, and it is the first passing choice of that area |
| `Sizes.PreviewSizeFallsBack` | app/src/main/java/com/ymlion/mediasample/capture/CameraCapture.java:192-196 | if no choice passes the filter, the result is exactly choices[0] |
| `Sizes.ChooseOptimalSize` | app/src/main/java/com/ymlion/mediasample/capture/CameraCapture.java:183-198 | the loop that collects the passing choices, then takes their minimum or the fallback, returns what the lemmas above describe |
| `Orientation.JavaRem360` | app/src/main/java/com/ymlion/mediasample/capture/CameraCapture.java:261-264 | Java's `% 360` lies strictly between -360 and 360, has the sign of the dividend, and differs from it by a multiple of 360 |
| `Orientation.JavaRemOfNonNegative` | app/src/main/java/com/ymlion/mediasample/capture/CameraCapture.java:261-264 | on a non-negative dividend Java's `% 360` is the Euclidean remainder |
| `Orientation.RotationDegrees` | app/src/main/java/com/ymlion/mediasample/capture/CameraCapture.java:243-257 | rotation codes 0..3 give 0, 90, 180 and 270 degrees, and every other code gives 0 |
| `Orientation.DisplayOrientation` | app/src/main/java/com/ymlion/mediasample/capture/CameraCapture.java:259-265 | the front and back formulas; no contract of its own, its properties are stated by `Orientation.DisplayOrientationInRange`, `Orientation.FrontCompensates` and `Orientation.BackCompensates` |
| `Orientation.DisplayOrientationInRange` | app/src/main/java/com/ymlion/mediasample/capture/CameraCapture.java:259-265 | for a non-negative sensor angle and a right-angle display rotation the result is in [0, 360) for either facing |
| `Orientation.FrontCompensates` | app/src/main/java/com/ymlion/mediasample/capture/CameraCapture.java:260-262 | front camera: the result is in [0, 360) and adding (orientation + degrees) % 360 gives a multiple of 360 |
| `Orientation.BackCompensates` | app/src/main/java/com/ymlion/mediasample/capture/CameraCapture.java:263-265 | back camera: the result is in [0, 360) and equals (orientation - degrees) modulo 360 |
| `Orientation.DetermineDisplayOrientation` | app/src/main/java/com/ymlion/mediasample/capture/CameraCapture.java:231-268 | 0 when the context is gone; otherwise, for a non-negative sensor angle, an angle in [0, 360) that compensates the front or back rotation as above |
| `Orientation.NegativeOrientationGivesNegativeResult` | app/src/main/java/com/ymlion/mediasample/capture/CameraCapture.java:264 | with a negative sensor angle Java's remainder makes the back-camera result negative (-180 and 270 give -90) |
| `Capture.GetCameraFacing` | app/src/main/java/com/ymlion/mediasample/capture/CameraCapture.java:178-181 | the code FRONT gives the front camera and every other code gives the back camera |
| `Capture.Toggle` | app/src/main/java/com/ymlion/mediasample/capture/CameraCapture.java:60-64 | the facing changeFacing selects differs from the current one |
| `Capture.ToggleTwiceRestores` | app/src/main/java/com/ymlion/mediasample/capture/CameraCapture.java:59-65 | toggling the facing twice gives back the original facing |
| `Capture.FlashModeString` | app/src/main/java/com/ymlion/mediasample/capture/CameraCapture.java:206-211 | "off" iff the code is OFF, "on" iff it is ON, and "auto" iff it is anything else |
| `Capture.FocusChoice` | app/src/main/java/com/ymlion/mediasample/capture/CameraCapture.java:216-227 | no mode iff none of continuous-picture, auto and macro is supported; otherwise the chosen mode is supported, is one of the three, and no mode of higher priority is supported |
| `Capture.CameraCapture.constructor` | app/src/main/java/com/ymlion/mediasample/capture/CameraCapture.java:38-53 | a new capture object faces back, uses auto flash, has no auto-focus, no sizes and no open camera |
| `Capture.CameraCapture.SetCameraType` | app/src/main/java/com/ymlion/mediasample/capture/CameraCapture.java:55-57 | the facing becomes the one getCameraFacing gives for the code |
| `Capture.CameraCapture.ChangeFacing` | app/src/main/java/com/ymlion/mediasample/capture/CameraCapture.java:59-65 | the facing becomes `Toggle` of the old facing, which is the other one |
| `Capture.CameraCapture.SetupFlashMode` | app/src/main/java/com/ymlion/mediasample/capture/CameraCapture.java:200-213 | with no supported flash list the parameters are unchanged; otherwise only the flash mode changes, to the string for the current code |
| `Capture.CameraCapture.SetFlashMode` | app/src/main/java/com/ymlion/mediasample/capture/CameraCapture.java:153-163 | the current code changes nothing; a new code is stored and, when a camera is open, its parameters get the new flash string |
| `Capture.CameraCapture.SetupFocusMode` | app/src/main/java/com/ymlion/mediasample/capture/CameraCapture.java:215-229 | the auto-focus flag is true iff a focus mode was chosen; the chosen mode is set, and without one the parameters are unchanged |
| `Capture.CameraCapture.Close` | app/src/main/java/com/ymlion/mediasample/capture/CameraCapture.java:142-151 | afterwards no camera is open |
| `Capture.CameraCapture.Open` | app/src/main/java/com/ymlion/mediasample/capture/CameraCapture.java:71-104 | nothing changes when the context is gone; a failed Camera.open leaves no camera; an empty size list stops after the step that threw; otherwise it installs the largest picture size, the chosen preview size and the flash and focus modes, sets the auto-focus flag, and changes the display orientation only when the computed one is positive |

## Left out

- `prepareMatrix` and the face-rectangle mapping in `onFaceDetection`. They
  use float `Matrix` transforms from Android's graphics library and
  hard-coded view dimensions.
- The camera lifecycle outside parameter negotiation: `setPreviewDisplay`,
  `startPreview`, starting and stopping face detection, `stopPreview` and
  `release` in `close`, and `takePicture` with its auto-focus and picture
  callbacks. These are hardware calls and asynchronous callbacks.
- `onInitFinished`, `SurfaceHolder`/`Canvas` drawing, `Paint` setup and
  `Log` calls. These are I/O. The "no suitable preview size" log line is
  therefore not modelled.
- `Camera.getCameraInfo`, the `WindowManager` rotation query and the
  `WeakReference` context. They are inputs to `Open` and
  `DetermineDisplayOrientation`. `Open` reads the context's liveness once,
  although the source reads it at line 72 and again at line 232.
- The commented-out YUV/JPEG preview code. It is not compiled.
- Exceptions other than the two empty-list ones. For example, the platform
  may reject `setParameters`; the model does not represent that.
- A null supported-size or focus-mode list. The source would throw a
  `NullPointerException` there. `getSupportedPictureSizes`,
  `getSupportedPreviewSizes` and `getSupportedFocusModes` are modelled as
  never null. Only the flash list, which the source checks, is optional.
- `DetermineDisplayOrientation`: the sum and difference of the sensor angle
  and the display angle are not wrapped to 32 bits. Sensor angles are
  multiples of 90 below 360, so the wrap cannot occur.
