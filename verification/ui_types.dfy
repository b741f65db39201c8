/** UI components the telemetry pass writes (src/game/ui/datatypes.rs and the
    `Label`/`UIElement` pair of src/engine/ui/datatypes.rs). Text formatting
    and measurement are not modelled: a label holds the value it would show. */
module UiTypes {
  import opened EngineTypes

  /** Which marker tag a label carries. */
  datatype LabelKind = GlobalStorageLabel | IdleTaskCountLabel | ActiveTaskCountLabel | OtherLabel

  /** What a label currently shows. */
  datatype LabelValue = Blank | Count(n: nat) | Totals(totals: map<GameResource, int>)

  /** A label entity: its tag, its `UIElement.visible` flag and its content. */
  datatype UiLabel = UiLabel(kind: LabelKind, visible: bool, shown: LabelValue)
}
