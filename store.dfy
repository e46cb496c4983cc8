/**
 * The shared camera-state store: one mutable record of seven fields, each
 * with a setter that overwrites that field alone. Other components read it
 * (the crosshair, the terminal) and write it (the raycast click handler
 * switches walking off).
 */
module Store {
  import opened Wrappers
  import opened Geometry

  /** Identifier of the camera that is active, when one is. */
  type CameraId = string

  /** The store's contents as a value. */
  datatype CameraState = CameraState(
    cameraPosition: Vec3,
    cameraRotation: Vec3,
    targetCameraPosition: Vec3,
    targetCameraRotation: Vec3,
    activeCamera: Option<CameraId>,
    isWalking: bool,
    isDragging: bool)

  /** The values the store is created with. */
  const Initial := CameraState(Zero, Zero, Zero, Zero, None, false, false)

  class CameraStore {
    var cameraPosition: Vec3
    var cameraRotation: Vec3
    var targetCameraPosition: Vec3
    var targetCameraRotation: Vec3
    var activeCamera: Option<CameraId>
    var isWalking: bool
    var isDragging: bool

    /** The record as a value. */
    function State(): CameraState
      reads this
    {
      CameraState(cameraPosition, cameraRotation, targetCameraPosition,
                  targetCameraRotation, activeCamera, isWalking, isDragging)
    }

    constructor ()
      ensures State() == Initial
      ensures cameraPosition == cameraRotation == Zero
      ensures targetCameraPosition == targetCameraRotation == Zero
      ensures activeCamera == None && !isWalking && !isDragging
    {
      cameraPosition, cameraRotation := Zero, Zero;
      targetCameraPosition, targetCameraRotation := Zero, Zero;
      activeCamera := None;
      isWalking, isDragging := false, false;
    }

    method SetCameraPosition(position: Vec3)
      modifies this
      ensures State() == old(State()).(cameraPosition := position)
    {
      cameraPosition := position;
    }

    method SetCameraRotation(rotation: Vec3)
      modifies this
      ensures State() == old(State()).(cameraRotation := rotation)
    {
      cameraRotation := rotation;
    }

    method SetTargetCameraPosition(position: Vec3)
      modifies this
      ensures State() == old(State()).(targetCameraPosition := position)
    {
      targetCameraPosition := position;
    }

    method SetTargetCameraRotation(rotation: Vec3)
      modifies this
      ensures State() == old(State()).(targetCameraRotation := rotation)
    {
      targetCameraRotation := rotation;
    }

    method SetActiveCamera(camera: Option<CameraId>)
      modifies this
      ensures State() == old(State()).(activeCamera := camera)
    {
      activeCamera := camera;
    }

    method SetIsWalking(walking: bool)
      modifies this
      ensures State() == old(State()).(isWalking := walking)
      ensures isWalking == walking
    {
      isWalking := walking;
    }

    method SetIsDragging(dragging: bool)
      modifies this
      ensures State() == old(State()).(isDragging := dragging)
      ensures isDragging == dragging
    {
      isDragging := dragging;
    }
  }

  /** Setting a field twice to the same value is the same as setting it once. */
  lemma SettersIdempotent(s: CameraState, v: Vec3, c: Option<CameraId>, b: bool)
    ensures s.(cameraPosition := v).(cameraPosition := v) == s.(cameraPosition := v)
    ensures s.(cameraRotation := v).(cameraRotation := v) == s.(cameraRotation := v)
    ensures s.(targetCameraPosition := v).(targetCameraPosition := v) == s.(targetCameraPosition := v)
    ensures s.(targetCameraRotation := v).(targetCameraRotation := v) == s.(targetCameraRotation := v)
    ensures s.(activeCamera := c).(activeCamera := c) == s.(activeCamera := c)
    ensures s.(isWalking := b).(isWalking := b) == s.(isWalking := b)
    ensures s.(isDragging := b).(isDragging := b) == s.(isDragging := b)
  {
  }
}
