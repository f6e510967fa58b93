/** The state kept by CameraCapture: the camera facing, the flash mode, the
    auto-focus flag and the sizes chosen when the camera is opened, with the
    flash and focus negotiation against the camera's parameters. */
module Capture {
  import opened Optional
  import opened Sizes
  import opened Orientation

  /** Flash-mode codes of the public API. */
  const FLASH_MODE_OFF: int := 0
  const FLASH_MODE_ON: int := 1
  const FLASH_MODE_AUTO: int := 2

  /** Camera-type codes of the public API. */
  const FRONT: int := 1
  const BACK: int := 2

  /** String values of Camera.Parameters' flash and focus modes. */
  const FlashValueOff: string := "off"
  const FlashValueOn: string := "on"
  const FlashValueAuto: string := "auto"
  const FocusValueContinuousPicture: string := "continuous-picture"
  const FocusValueAuto: string := "auto"
  const FocusValueMacro: string := "macro"

  /** getCameraFacing: FRONT selects the front camera, any other code the back one. */
  function GetCameraFacing(cameraType: int): (f: Facing)
    ensures f == Front <==> cameraType == FRONT
  {
    if FRONT == cameraType then Front else Back
  }

  /** The facing changeFacing selects: back when the current one is the
      facing of FRONT, front otherwise. */
  function Toggle(f: Facing): (t: Facing)
    ensures t != f
  {
    if f == GetCameraFacing(FRONT) then GetCameraFacing(BACK) else GetCameraFacing(FRONT)
  }

  /** Two consecutive changeFacing calls restore the facing. */
  lemma ToggleTwiceRestores(f: Facing)
    ensures Toggle(Toggle(f)) == f
  {
  }

  /** The flash-mode string setupFlashMode passes on for a flash-mode code. */
  function FlashModeString(flashMode: int): (s: string)
    ensures s == FlashValueOff <==> flashMode == FLASH_MODE_OFF
    ensures s == FlashValueOn <==> flashMode == FLASH_MODE_ON
    ensures s == FlashValueAuto <==> flashMode != FLASH_MODE_OFF && flashMode != FLASH_MODE_ON
  {
    if FLASH_MODE_OFF == flashMode then FlashValueOff
    else if FLASH_MODE_ON == flashMode then FlashValueOn
    else FlashValueAuto
  }

  /** The focus mode setupFocusMode sets, if any: continuous-picture, then auto,
      then macro, whichever is supported first. The auto branch passes the
      flash constant FLASH_MODE_AUTO, whose string is the focus value "auto". */
  function FocusChoice(supported: seq<string>): (m: Option<string>)
    ensures m.None? <==> FocusValueContinuousPicture !in supported
                         && FocusValueAuto !in supported && FocusValueMacro !in supported
    ensures m.Some? ==> m.value in supported
    ensures m.Some? ==> m.value == FocusValueContinuousPicture
                        || m.value == FocusValueAuto || m.value == FocusValueMacro
    ensures m == Some(FocusValueAuto) ==> FocusValueContinuousPicture !in supported
    ensures m == Some(FocusValueMacro) ==> FocusValueContinuousPicture !in supported
                                           && FocusValueAuto !in supported
  {
    if FocusValueContinuousPicture in supported then Some(FocusValueContinuousPicture)
    else if FocusValueAuto in supported then Some(FlashValueAuto)
    else if FocusValueMacro in supported then Some(FocusValueMacro)
    else None
  }

  /** Camera.Parameters as a value: getParameters returns a copy, setParameters
      installs one. A null list of supported flash modes is None. */
  datatype CameraParameters = CameraParameters(
    supportedPictureSizes: seq<Size>,
    supportedPreviewSizes: seq<Size>,
    supportedFlashModes: Option<seq<string>>,
    supportedFocusModes: seq<string>,
    pictureSize: Size,
    previewSize: Size,
    flashMode: string,
    focusMode: string)

  /** An open camera: its installed parameters and its display orientation. */
  datatype OpenCamera = OpenCamera(parameters: CameraParameters, displayOrientation: int)

  class CameraCapture {
    var cameraFacing: Facing
    var flashMode: int
    var isAutoFocusSupport: bool
    var pictureSize: Option<Size>
    var previewSize: Option<Size>
    /** mCamera: None while no camera is open. */
    var camera: Option<OpenCamera>

    constructor ()
      ensures cameraFacing == Back && flashMode == FLASH_MODE_AUTO && !isAutoFocusSupport
      ensures pictureSize == None && previewSize == None && camera == None
    {
      cameraFacing := Back;
      flashMode := FLASH_MODE_AUTO;
      isAutoFocusSupport := false;
      pictureSize := None;
      previewSize := None;
      camera := None;
    }

    /** setCameraType: the facing for a camera-type code. */
    method SetCameraType(cameraType: int)
      modifies this`cameraFacing
      ensures cameraFacing == GetCameraFacing(cameraType)
    {
      cameraFacing := GetCameraFacing(cameraType);
    }

    /** changeFacing: front becomes back and back becomes front. */
    method ChangeFacing()
      modifies this`cameraFacing
      ensures cameraFacing == Toggle(old(cameraFacing))
    {
      if cameraFacing == GetCameraFacing(FRONT) {
        SetCameraType(BACK);
      } else {
        SetCameraType(FRONT);
      }
    }

    /** setupFlashMode on a copy of the parameters: nothing when the camera
        reports no flash modes, otherwise the string for the current code. */
    function SetupFlashMode(p: CameraParameters): (q: CameraParameters)
      reads this`flashMode
      ensures q.flashMode == if p.supportedFlashModes.None? then p.flashMode else FlashModeString(flashMode)
      ensures q.(flashMode := p.flashMode) == p
    {
      if p.supportedFlashModes.None? then p
      else p.(flashMode := FlashModeString(flashMode))
    }

    /** setFlashMode: nothing happens when the code is the current one;
        otherwise the code is stored and, when a camera is open, its
        parameters are read, updated by setupFlashMode and installed again. */
    method SetFlashMode(mode: int)
      modifies this`flashMode, this`camera
      ensures old(flashMode) == mode ==> flashMode == old(flashMode) && camera == old(camera)
      ensures old(flashMode) != mode ==> flashMode == mode
      ensures old(flashMode) != mode && old(camera).None? ==> camera == None
      ensures old(flashMode) != mode && old(camera).Some? ==>
                camera == Some(old(camera).value.(parameters := SetupFlashMode(old(camera).value.parameters)))
    {
      if flashMode == mode {
        return;
      }
      flashMode := mode;
      if camera.Some? {
        var parameters := camera.value.parameters;
        parameters := SetupFlashMode(parameters);
        camera := Some(camera.value.(parameters := parameters));
      }
    }

    /** setupFocusMode on a copy of the parameters: the auto-focus flag says
        whether one of the three focus modes is supported, and the chosen one is
        set; with none of them the focus mode stays as it was. */
    method SetupFocusMode(p: CameraParameters) returns (q: CameraParameters)
      modifies this`isAutoFocusSupport
      ensures isAutoFocusSupport <==> FocusChoice(p.supportedFocusModes).Some?
      ensures q == match FocusChoice(p.supportedFocusModes)
                   case Some(m) => p.(focusMode := m)
                   case None => p
    {
      isAutoFocusSupport := false;
      var choices := p.supportedFocusModes;
      q := p;
      if FocusValueContinuousPicture in choices {
        isAutoFocusSupport := true;
        q := p.(focusMode := FocusValueContinuousPicture);
      } else if FocusValueAuto in choices {
        isAutoFocusSupport := true;
        q := p.(focusMode := FlashValueAuto);
      } else if FocusValueMacro in choices {
        isAutoFocusSupport := true;
        q := p.(focusMode := FocusValueMacro);
      }
    }

    /** close: the camera is released. */
    method Close()
      modifies this`camera
      ensures camera == None
    {
      camera := None;
    }

    /** The parameter negotiation of open. `device` is what Camera.open returns
        for the current facing (None when it throws); `info` and `rotation` are
        what getCameraInfo and the display report. An exception inside the try
        block ends the call with the state reached so far. */
    method Open(contextAlive: bool, device: Option<OpenCamera>, wantedMinPreviewWidth: int,
                info: CameraInfo, rotation: int)
      modifies this
      ensures cameraFacing == old(cameraFacing) && flashMode == old(flashMode)
      ensures !contextAlive ==>
                camera == old(camera) && pictureSize == old(pictureSize)
                && previewSize == old(previewSize) && isAutoFocusSupport == old(isAutoFocusSupport)
      ensures contextAlive && device.None? ==>
                camera == None && pictureSize == old(pictureSize)
                && previewSize == old(previewSize) && isAutoFocusSupport == old(isAutoFocusSupport)
      ensures contextAlive && device.Some? ==>
                var p := device.value.parameters;
                var picture := MaxByArea(p.supportedPictureSizes);
                var preview := if picture.None? then None
                               else PreviewSizeFor(p.supportedPreviewSizes, wantedMinPreviewWidth, picture.value);
                var orientation := DetermineDisplayOrientation(contextAlive, info, rotation);
                if preview.None? then
                  camera == device && isAutoFocusSupport == old(isAutoFocusSupport)
                  && pictureSize == (if picture.None? then old(pictureSize) else picture)
                  && previewSize == old(previewSize)
                else
                  var sized := p.(pictureSize := picture.value, previewSize := preview.value);
                  var focused := match FocusChoice(p.supportedFocusModes)
                                 case Some(m) => SetupFlashMode(sized).(focusMode := m)
                                 case None => SetupFlashMode(sized);
                  pictureSize == picture && previewSize == preview
                  && (isAutoFocusSupport <==> FocusChoice(p.supportedFocusModes).Some?)
                  && camera == Some(OpenCamera(focused,
                                      if orientation > 0 then orientation else device.value.displayOrientation))
    {
      if !contextAlive {
        return;
      }
      if camera.Some? {
        Close();
      }
      if device.None? {
        return;
      }
      camera := device;
      var parameters := device.value.parameters;
      var picture := MaxByArea(parameters.supportedPictureSizes);
      if picture.None? {
        return;
      }
      pictureSize := picture;
      parameters := parameters.(pictureSize := picture.value);
      var preview := ChooseOptimalSize(parameters.supportedPreviewSizes, wantedMinPreviewWidth, picture.value);
      if preview.None? {
        return;
      }
      previewSize := preview;
      parameters := parameters.(previewSize := preview.value);
      parameters := SetupFlashMode(parameters);
      parameters := SetupFocusMode(parameters);
      camera := Some(device.value.(parameters := parameters));
      var orientation := DetermineDisplayOrientation(contextAlive, info, rotation);
      if orientation > 0 {
        camera := Some(camera.value.(displayOrientation := orientation));
      }
    }
  }
}
