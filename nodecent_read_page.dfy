/** The read page of NoDecentDiary, the application's earlier generation:
    its delete dialog, which keeps the pending delete action only while the
    dialog is open, and its two toggles. */
module NoDecentReadPage {
  import opened Wrappers
  import opened Models

  /** A delete action waiting for the user's confirmation: it deletes the
      diary with this id. */
  datatype DeleteHandler = DeleteDiary(id: int)

  /** The calls the page makes on its services. */
  datatype ServiceCall = UpdateDiary(diary: DiaryModel) | SaveSetting(key: string, value: bool) | Delete(id: int)

  /** The toasts shown, by translation key. */
  datatype Toast = SuccessToast(title: string) | ErrorToast(title: string)

  class ReadPage {
    const Id: int
    var showDelete: bool
    /** The delegate's invocation list; the empty list is `null`. */
    var OnDelete: seq<DeleteHandler>
    var Markdown: bool
    var serviceCalls: seq<ServiceCall>
    var toasts: seq<Toast>
    /** How many times the page navigated back. */
    var backs: nat

    constructor (id: int, markdown: bool)
      ensures Id == id && Markdown == markdown
      ensures !showDelete && OnDelete == [] && serviceCalls == [] && toasts == [] && backs == 0
    {
      Id, Markdown := id, markdown;
      showDelete, OnDelete, serviceCalls, toasts, backs := false, [], [], [], 0;
    }

    /** The `ShowDelete` property's getter. */
    function ShowDelete(): bool
      reads this
    {
      showDelete
    }

    /** The `ShowDelete` property's setter: closing the dialog drops the
        pending action, opening it keeps it. Whatever the old state, a
        closed dialog has nothing pending afterwards. */
    method SetShowDelete(value: bool)
      modifies this`showDelete, this`OnDelete
      ensures showDelete == value
      ensures !value ==> OnDelete == []
      ensures value ==> OnDelete == old(OnDelete)
    {
      showDelete := value;
      if !value {
        OnDelete := [];
      }
    }

    /** Adds the action that deletes this diary, then opens the dialog. */
    method OpenDeleteDialog()
      modifies this`showDelete, this`OnDelete
      ensures showDelete
      ensures OnDelete == old(OnDelete) + [DeleteDiary(Id)]
    {
      OnDelete := OnDelete + [DeleteDiary(Id)];
      SetShowDelete(true);
    }

    /** The body of the delete action, once confirmed: close the dialog,
        delete the diary (`deleted` is the diary service's answer), say how
        it went and go back. */
    method RunDeleteAction(deleted: bool)
      modifies this`showDelete, this`OnDelete, this`serviceCalls, this`toasts, this`backs
      ensures !showDelete && OnDelete == []
      ensures serviceCalls == old(serviceCalls) + [Delete(Id)]
      ensures toasts == old(toasts) + [if deleted then SuccessToast("Share.DeleteSuccess") else ErrorToast("Share.DeleteFail")]
      ensures backs == old(backs) + 1
    {
      SetShowDelete(false);
      serviceCalls := serviceCalls + [Delete(Id)];
      if deleted {
        toasts := toasts + [SuccessToast("Share.DeleteSuccess")];
      } else {
        toasts := toasts + [ErrorToast("Share.DeleteFail")];
      }
      backs := backs + 1;
    }

    /** Pins or unpins the given diary and stores it; no other field of the
        diary may change. */
    method OnTopping(diaryModel: DiaryModel)
      modifies diaryModel`Top, this`serviceCalls
      ensures diaryModel.Top == !old(diaryModel.Top)
      ensures serviceCalls == old(serviceCalls) + [UpdateDiary(diaryModel)]
    {
      diaryModel.Top := !diaryModel.Top;
      serviceCalls := serviceCalls + [UpdateDiary(diaryModel)];
    }

    /** Switches between markdown and plain text and saves the setting. */
    method MarkdownChanged()
      modifies this`Markdown, this`serviceCalls
      ensures Markdown == !old(Markdown)
      ensures serviceCalls == old(serviceCalls) + [SaveSetting("Markdown", Markdown)]
    {
      Markdown := !Markdown;
      serviceCalls := serviceCalls + [SaveSetting("Markdown", Markdown)];
    }
  }
}
