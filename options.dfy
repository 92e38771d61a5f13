/**
 * `AvaOptions`: the UI state the page and ava executors change through setters.
 * Each setter changes exactly its own field.
 */
module Options {
  import opened Text

  /** A snapshot of the UI state. `contextIndex` is `None` when it was set to NaN. */
  datatype UiView = UiView(
    showTag: bool,
    renderTag: bool,
    contextIndex: Option<int>,
    avaPosition: string,
    reminderOpen: bool,
    tagModalOpen: bool)

  class UiState {
    var showTag: bool
    var renderTag: bool
    var contextIndex: Option<int>
    var avaPosition: string
    var reminderOpen: bool
    var tagModalOpen: bool

    function View(): UiView
      reads this
    {
      UiView(showTag, renderTag, contextIndex, avaPosition, reminderOpen, tagModalOpen)
    }

    constructor(initial: UiView)
      ensures View() == initial
    {
      showTag := initial.showTag;
      renderTag := initial.renderTag;
      contextIndex := initial.contextIndex;
      avaPosition := initial.avaPosition;
      reminderOpen := initial.reminderOpen;
      tagModalOpen := initial.tagModalOpen;
    }

    /** `setShowTag` */
    method SetShowTag(value: bool)
      modifies this
      ensures View() == old(View()).(showTag := value)
    {
      showTag := value;
    }

    /** `setRenderTag` */
    method SetRenderTag(value: bool)
      modifies this
      ensures View() == old(View()).(renderTag := value)
    {
      renderTag := value;
    }

    /** `setContextIndex` */
    method SetContextIndex(index: Option<int>)
      modifies this
      ensures View() == old(View()).(contextIndex := index)
    {
      contextIndex := index;
    }

    /** `setAvaPosition` */
    method SetAvaPosition(position: string)
      modifies this
      ensures View() == old(View()).(avaPosition := position)
    {
      avaPosition := position;
    }

    /** `modalOptions.setIsReminderOpen` */
    method SetIsReminderOpen(isOpen: bool)
      modifies this
      ensures View() == old(View()).(reminderOpen := isOpen)
    {
      reminderOpen := isOpen;
    }

    /** `modalOptions.openTagModal` */
    method OpenTagModal()
      modifies this
      ensures View() == old(View()).(tagModalOpen := true)
    {
      tagModalOpen := true;
    }

    /** `modalOptions.closeTagModal` */
    method CloseTagModal()
      modifies this
      ensures View() == old(View()).(tagModalOpen := false)
    {
      tagModalOpen := false;
    }
  }
}
