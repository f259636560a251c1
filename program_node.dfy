/** The contribution object itself: it updates the data model, the undo
    history and its view in place. Every method is proved to perform the
    corresponding step of module ProgramNodeSpec, whose lemmas say what the
    steps promise. */
module ProgramNode {
  import opened UrcapData
  import opened ProgramNodeSpec

  class ExternalControlProgramNodeContribution {
    /** The persisted `DataModel`. */
    var model: Store
    /** The transactions recorded with the `UndoRedoManager`, oldest first. */
    var undoLog: seq<Transaction>
    /** The display state pushed into the node's view. */
    var view: ViewState
    /** `MasterPair.fromString`, whose decoding is not modelled. */
    const fromString: string -> MasterPair

    function State(): NodeState
      reads this
    {
      NodeState(model, undoLog, view)
    }

    constructor (model: Store, view: ViewState, fromString: string -> MasterPair)
      ensures State() == NodeState(model, [], view)
      ensures this.fromString == fromString
    {
      this.model := model;
      this.undoLog := [];
      this.view := view;
      this.fromString := fromString;
    }

    /** `undoRedoManager.recordChanges`: executes the unit of work and pushes it. */
    method RecordChanges(t: Transaction)
      modifies this
      ensures State() == ProgramNodeSpec.RecordChanges(old(State()), t)
    {
      model := Apply(model, t);
      undoLog := undoLog + [t];
    }

    method OpenView()
      modifies this
      ensures State() == ProgramNodeSpec.OpenView(old(State()))
    {
      view := view.(infoHostIp := GetMasterIP(model), infoCustomPort := GetMasterPort(model));
    }

    /** `closeView` holds no resources and does nothing. */
    method CloseView()
      ensures State() == old(State())
    {
    }

    method SetParam(key: string, value: string, defaultValue: string)
      modifies this
      ensures State() == ProgramNodeSpec.SetParam(old(State()), key, value, defaultValue)
    {
      RecordChanges(SetParamChanges(key, value, defaultValue));
    }

    method UpdateAdvancedParam(enable: bool)
      modifies this
      ensures model == old(model) && undoLog == old(undoLog)
      ensures view == ProgramNodeSpec.UpdateAdvancedParam(old(view), enable)
    {
      if enable {
        view := view.(advancedParamsVisible := true);
      } else {
        view := view.(advancedParamsVisible := false);
      }
    }

    method SetAdvancedParam(show: bool)
      modifies this
      ensures State() == ProgramNodeSpec.SetAdvancedParam(old(State()), show)
    {
      UpdateAdvancedParam(show);
      RecordChanges([Write(AdvancedParamKey, BoolValue(show))]);
    }

    method MaxLostPackagesOnOk(value: string)
      modifies this
      ensures State() == ProgramNodeSpec.MaxLostPackagesOnOk(old(State()), value)
    {
      SetParam(MaxLostPackagesKey, value, MaxLostPackagesDefault);
      view := view.(maxLostPackagesText := value);
    }

    method GainServojOnOk(value: string)
      modifies this
      ensures State() == ProgramNodeSpec.GainServojOnOk(old(State()), value)
    {
      SetParam(GainServoJKey, value, GainServoJDefault);
      view := view.(gainServojText := value);
    }

    method OnMasterSelection(selectedMaster: string)
      modifies this
      ensures State() == ProgramNodeSpec.OnMasterSelection(old(State()), fromString, selectedMaster)
    {
      var master := fromString(selectedMaster);
      if GetMasterIP(model) == master.ip && GetMasterPort(model) == master.port {
        return;
      }
      RecordChanges(MasterChanges(master));
    }
  }
}
