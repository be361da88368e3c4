/**
 * The camera registry (Assets/Scripts/CameraManagement/CameraManager.cs):
 * cameras registered by id; at most one of them is meant to be enabled, the
 * active one, which carries the MainCamera tag.
 *
 * A camera is an object whose enabled flag and tag the manager changes; the
 * registry maps ids to possibly null cameras, as the Dictionary<string,
 * Camera> can. A game-state change is a call of its handler.
 */
module Cameras {
  import opened Wrappers

  datatype GameState = None | Overworld | Battle | Cutscene | Menu | Loading | GameOver | TitleScreen

  const MainCameraTag := "MainCamera"
  const Untagged := "Untagged"

  /** The camera fields the manager changes. */
  datatype CameraState = CameraState(enabled: bool, tag: string)

  /**
   * SetCameraActiveState on a camera: enabled as asked; enabling tags it as
   * the main camera; disabling removes that tag and leaves any other tag.
   */
  function Switched(c: CameraState, isActive: bool): (r: CameraState)
    ensures r.enabled == isActive
    ensures isActive ==> r.tag == MainCameraTag
    ensures !isActive ==> r.tag != MainCameraTag && (c.tag != MainCameraTag ==> r.tag == c.tag)
  {
    c.(enabled := isActive, tag := if isActive then MainCameraTag else if c.tag == MainCameraTag then Untagged else c.tag)
  }

  /** Switching twice the same way is switching once. */
  lemma SwitchedIdempotent(c: CameraState, isActive: bool)
    ensures Switched(Switched(c, isActive), isActive) == Switched(c, isActive)
  {
  }

  /** No two ids name the same camera. */
  predicate Unaliased(m: map<string, Camera?>)
  {
    forall a, b :: a in m && b in m && a != b && m[a] != null ==> m[a] != m[b]
  }

  class Camera {
    var enabled: bool
    var tag: string

    constructor (enabled: bool, tag: string)
      ensures this.enabled == enabled && this.tag == tag
    {
      this.enabled := enabled;
      this.tag := tag;
    }

    function State(): CameraState
      reads this
    {
      CameraState(enabled, tag)
    }
  }

  class CameraManager {
    var registeredCameras: map<string, Camera?>
    var activeCamera: Camera?
    const overworldCameraID: string
    const battleCameraID: string
    const cutsceneCameraID: string

    /** The manager with its three configured ids and no camera yet. */
    constructor (overworldCameraID: string, battleCameraID: string, cutsceneCameraID: string)
      ensures this.overworldCameraID == overworldCameraID && this.battleCameraID == battleCameraID
      ensures this.cutsceneCameraID == cutsceneCameraID
      ensures registeredCameras == map[] && activeCamera == null
    {
      this.overworldCameraID := overworldCameraID;
      this.battleCameraID := battleCameraID;
      this.cutsceneCameraID := cutsceneCameraID;
      registeredCameras := map[];
      activeCamera := null;
    }

    /** Only the active camera, if any, of those registered is enabled. */
    predicate OneActive()
      reads this, registeredCameras.Values
    {
      forall id :: id in registeredCameras && registeredCameras[id] != null && registeredCameras[id].enabled ==>
        registeredCameras[id] == activeCamera
    }

    /** The camera registered under `id`, as a frame. */
    function At(id: string): set<Camera?>
      reads this
    {
      if id in registeredCameras then {registeredCameras[id]} else {}
    }

    /** The camera id each game state activates; the other states keep the current camera. */
    function CameraIdFor(state: GameState): (r: Option<string>)
      ensures r.Some? <==> state in {Overworld, Battle, Cutscene}
    {
      match state
      case Overworld => Some(overworldCameraID)
      case Battle => Some(battleCameraID)
      case Cutscene => Some(cutsceneCameraID)
      case _ => Option.None
    }

    /** SetCameraActiveState: nothing for a null camera. */
    method SetCameraActiveState(cam: Camera?, isActive: bool)
      modifies cam
      ensures cam != null ==> cam.State() == Switched(old(cam.State()), isActive)
    {
      if cam == null {
        return;
      }
      cam.enabled := isActive;
      if isActive {
        cam.tag := MainCameraTag;
      } else if cam.tag == MainCameraTag {
        cam.tag := Untagged;
      }
    }

    /** RegisterCamera: adds or overwrites the entry, and disables the camera until it is activated. */
    method RegisterCamera(cameraID: string, cam: Camera?)
      modifies this, cam
      ensures registeredCameras == old(registeredCameras)[cameraID := cam]
      ensures activeCamera == old(activeCamera)
      ensures cam != null ==> cam.State() == Switched(old(cam.State()), false)
      ensures old(OneActive()) ==> OneActive()
    {
      registeredCameras := registeredCameras[cameraID := cam];
      SetCameraActiveState(cam, false);
    }

    /** UnregisterCamera: removes the entry, and forgets the active camera if it was that one. */
    method UnregisterCamera(cameraID: string)
      modifies this
      ensures registeredCameras == old(registeredCameras) - {cameraID}
      ensures activeCamera ==
        if cameraID in old(registeredCameras) && old(activeCamera) != null && old(activeCamera) == old(registeredCameras)[cameraID]
        then null else old(activeCamera)
      ensures old(OneActive()) && Unaliased(old(registeredCameras)) ==> OneActive()
    {
      if cameraID in registeredCameras {
        if activeCamera != null && activeCamera == registeredCameras[cameraID] {
          activeCamera := null;
        }
        registeredCameras := registeredCameras - {cameraID};
      }
    }

    /**
     * ActivateCamera: nothing for an unknown id or the camera already
     * active; otherwise the previous camera is disabled, the target enabled,
     * and the target becomes the active camera.
     */
    method ActivateCamera(cameraID: string)
      modifies this, activeCamera, At(cameraID)
      ensures registeredCameras == old(registeredCameras)
      ensures cameraID !in old(registeredCameras) || old(registeredCameras)[cameraID] == old(activeCamera) ==>
        && activeCamera == old(activeCamera)
        && (activeCamera != null ==> activeCamera.State() == old(activeCamera.State()))
      ensures cameraID in old(registeredCameras) && old(registeredCameras)[cameraID] != old(activeCamera) ==>
        var target := old(registeredCameras)[cameraID];
        && activeCamera == target
        && (old(activeCamera) != null ==> old(activeCamera).State() == Switched(old(activeCamera.State()), false))
        && (target != null ==> target.State() == Switched(old(target.State()), true))
      ensures old(OneActive()) ==> OneActive()
    {
      if cameraID !in registeredCameras {
        return;
      }
      var targetCam := registeredCameras[cameraID];
      if activeCamera == targetCam {
        return;
      }
      if activeCamera != null {
        SetCameraActiveState(activeCamera, false);
      }
      SetCameraActiveState(targetCam, true);
      activeCamera := targetCam;
    }

    /** HandleGameStateChange: Overworld, Battle and Cutscene activate their configured camera; other states change nothing. */
    method HandleGameStateChange(newState: GameState)
      modifies this, activeCamera, if CameraIdFor(newState).Some? then At(CameraIdFor(newState).value) else {}
      ensures registeredCameras == old(registeredCameras)
      ensures CameraIdFor(newState).None? ==>
        && activeCamera == old(activeCamera)
        && (activeCamera != null ==> activeCamera.State() == old(activeCamera.State()))
      ensures CameraIdFor(newState).Some? ==>
        var id := CameraIdFor(newState).value;
        id !in old(registeredCameras) || old(registeredCameras)[id] == old(activeCamera) ==>
          && activeCamera == old(activeCamera)
          && (activeCamera != null ==> activeCamera.State() == old(activeCamera.State()))
      ensures CameraIdFor(newState).Some? ==>
        var id := CameraIdFor(newState).value;
        id in old(registeredCameras) && old(registeredCameras)[id] != old(activeCamera) ==>
          var target := old(registeredCameras)[id];
          && activeCamera == target
          && (old(activeCamera) != null ==> old(activeCamera).State() == Switched(old(activeCamera.State()), false))
          && (target != null ==> target.State() == Switched(old(target.State()), true))
      ensures CameraIdFor(newState).Some? && CameraIdFor(newState).value in registeredCameras ==>
        activeCamera == registeredCameras[CameraIdFor(newState).value]
      ensures old(OneActive()) ==> OneActive()
    {
      match newState
      case Overworld => ActivateCamera(overworldCameraID);
      case Battle => ActivateCamera(battleCameraID);
      case Cutscene => ActivateCamera(cutsceneCameraID);
      case _ =>
    }
  }
}
