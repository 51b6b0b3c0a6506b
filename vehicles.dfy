/** Vehicle selection on the customization screen
    (components/vehicle-customization.tsx): a selection is saved only when
    the chosen vehicle is already unlocked. */
module Vehicles {
  import opened Types

  /** `selectShip`: `Some(p')` is the progress handed to `onSave`; `None`
      means `onSave` is not called. */
  function SelectShip(p: GameProgress, shipId: int): (r: Option<GameProgress>)
    ensures r.Some? <==> shipId in p.unlockedShips
    ensures r.Some? ==> r.value.selectedShip == shipId
    ensures r.Some? ==> r.value.(selectedShip := p.selectedShip) == p
    ensures WellFormedProgress(p) && r.Some? ==> WellFormedProgress(r.value)
  {
    if shipId in p.unlockedShips then Some(p.(selectedShip := shipId)) else None
  }

  /** `selectUfo`: the same guard over the unlocked UFOs. */
  function SelectUfo(p: GameProgress, ufoId: int): (r: Option<GameProgress>)
    ensures r.Some? <==> ufoId in p.unlockedUfos
    ensures r.Some? ==> r.value.selectedUfo == ufoId
    ensures r.Some? ==> r.value.(selectedUfo := p.selectedUfo) == p
    ensures WellFormedProgress(p) && r.Some? ==> WellFormedProgress(r.value)
  {
    if ufoId in p.unlockedUfos then Some(p.(selectedUfo := ufoId)) else None
  }
}
