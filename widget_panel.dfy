/** The top panel of a persisted widget: its source link, owner avatar, Edit
    and Delete controls, and the edit dialog with a source text field and a
    description sub-editor. The GraphQL mutations are recorded as dispatched
    requests whose outcomes arrive as events; notifications and navigation are
    recorded as well. A missing widget field (null, undefined or "") is "". */
module WidgetPanel {
  import opened Wrappers
  import opened JsStrings

  /** The widget record shown by the panel; the panel writes its description
      and source in place. */
  class Widget {
    const id: string
    var description: string
    var source: string
    const canConfigure: bool
    /** `owner.username`, the avatar's tooltip. */
    const ownerName: string

    constructor (id: string, description: string, source: string, canConfigure: bool, ownerName: string)
      ensures this.id == id && this.description == description && this.source == source
      ensures this.canConfigure == canConfigure && this.ownerName == ownerName
    {
      this.id := id;
      this.description := description;
      this.source := source;
      this.canConfigure := canConfigure;
      this.ownerName := ownerName;
    }
  }

  /** A dispatched GraphQL mutation. */
  datatype Request =
    | UpdateRequest(id: string, description: string, source: string)
    | DeleteRequest(id: string)

  /** The delete mutation's result: a transport or GraphQL error, and the
      `deleteWidget` field of the data (None while there is no data). */
  datatype DeleteResult = DeleteResult(error: bool, data: Option<bool>)

  const NoDeleteResult := DeleteResult(false, None)

  /** The one notification the panel can raise. */
  datatype Notification = FailedToDeleteWidget

  /** Where the source link leads: a path pushed onto the in-app history, or a
      URL opened in a new window. */
  datatype Navigation = InApp(path: string) | External(url: string)

  /** The source-link target for a source under the page's origin. */
  function SourceLinkTarget(source: string, origin: string): (t: Navigation)
    ensures t.InApp? <==> StartsWith(source, origin)
    ensures t.InApp? ==> origin + t.path == source
    ensures t.External? ==> t.url == source
  {
    if StartsWith(source, origin) then
      ReplacePrefixStrips(source, origin);
      InApp(ReplaceFirst(source, origin, ""))
    else External(source)
  }

  /** Every in-app path under the origin is reached by the link built from it. */
  lemma SourceLinkRoundTrip(origin: string, path: string)
    ensures SourceLinkTarget(origin + path, origin) == InApp(path)
  {
    var s := origin + path;
    assert s[..|origin|] == origin;
    ReplacePrefixStrips(s, origin);
    assert s[|origin|..] == path;
  }

  /** The controls the panel shows besides the owner avatar. */
  datatype Controls = Controls(sourceLink: bool, edit: bool, delete: bool)

  function VisibleControls(source: string, isPreview: bool, canConfigure: bool): (c: Controls)
    ensures c.sourceLink <==> source != ""
    ensures c.edit <==> !isPreview && canConfigure
    ensures c.delete <==> c.edit
  {
    Controls(source != "", !isPreview && canConfigure, !isPreview && canConfigure)
  }

  /** A panel in preview mode never offers editing or deletion, whoever views it. */
  lemma PreviewIsReadOnly(source: string, canConfigure: bool)
    ensures var c := VisibleControls(source, true, canConfigure); !c.edit && !c.delete
  {
  }

  /** One mounted panel: its props and its component state. */
  class TopPanel {
    /** `props.widget`. */
    var widget: Widget?
    const isPreview: bool
    /** Whether the host passed a `removeSelf` callback. */
    const hasRemoveSelf: bool
    /** The preview element is attached. */
    var previewAttached: bool
    /** The dialog's textarea element is attached. */
    var textAreaAttached: bool
    /** The description sub-editor, by its current text; None while there is none. */
    var editor: Option<string>
    var editorDialogOpen: bool
    /** The dialog's source text field. */
    var widgetSource: string
    /** The `forceUpdate` stamp. */
    var forceUpdate: int
    var deleteResult: DeleteResult
    /** The update mutation's outcome; no code of the panel reads it. */
    var updateResult: Option<bool>
    /** Every mutation dispatched, oldest first. */
    var requests: seq<Request>
    var notifications: seq<Notification>
    var removeSelfCalls: nat
    var navigations: seq<Navigation>
    /** The descriptions handed to the Markdown preview renderer, oldest first. */
    var previews: seq<string>

    /** A sub-editor exists only on an attached textarea, and every delete
        request names a widget. */
    ghost predicate Valid()
      reads this
    {
      && (editor.Some? ==> textAreaAttached)
      && (forall i :: 0 <= i < |requests| && requests[i].DeleteRequest? ==> requests[i].id != "")
    }

    constructor (widget: Widget?, isPreview: bool, hasRemoveSelf: bool, now: int)
      ensures Valid()
      ensures this.widget == widget && this.isPreview == isPreview && this.hasRemoveSelf == hasRemoveSelf
      ensures !previewAttached && !textAreaAttached && editor.None? && !editorDialogOpen
      ensures widgetSource == "" && forceUpdate == now
      ensures deleteResult == NoDeleteResult && updateResult.None?
      ensures requests == [] && notifications == [] && removeSelfCalls == 0
      ensures navigations == [] && previews == []
    {
      this.widget := widget;
      this.isPreview := isPreview;
      this.hasRemoveSelf := hasRemoveSelf;
      previewAttached := false;
      textAreaAttached := false;
      editor := None;
      editorDialogOpen := false;
      widgetSource := "";
      forceUpdate := now;
      deleteResult := NoDeleteResult;
      updateResult := None;
      requests := [];
      notifications := [];
      removeSelfCalls := 0;
      navigations := [];
      previews := [];
    }

    /** `deleteWidget`: a delete request only for a widget with an id. */
    method DeleteWidget()
      requires Valid()
      modifies this`requests
      ensures Valid()
      ensures widget != null && widget.id != "" ==> requests == old(requests) + [DeleteRequest(widget.id)]
      ensures widget == null || widget.id == "" ==> requests == old(requests)
    {
      if widget != null && widget.id != "" {
        requests := requests + [DeleteRequest(widget.id)];
      }
    }

    /** `updateWidget`, the dialog's save button: with an editor and a widget,
        dispatches the update and writes the new description (the editor's text,
        or the old description when that is empty) and the buffered source into
        the widget at once, whatever the mutation later returns. The dialog
        closes in every case; its content unmounts, so the textarea ref is
        cleared and the editor effect's cleanup drops the sub-editor. */
    method UpdateWidget(now: int)
      requires Valid()
      modifies this`requests, this`forceUpdate, this`editorDialogOpen, this`editor, this`textAreaAttached, widget
      ensures Valid()
      ensures !editorDialogOpen && editor.None? && !textAreaAttached
      ensures old(editor).Some? && widget != null ==>
        var description := OrElse(old(editor).value, old(widget.description));
        && requests == old(requests) + [UpdateRequest(widget.id, description, widgetSource)]
        && widget.description == description && widget.source == widgetSource
        && forceUpdate == now
      ensures old(editor).None? || widget == null ==>
        && requests == old(requests) && forceUpdate == old(forceUpdate)
        && (widget != null ==> widget.description == old(widget.description) && widget.source == old(widget.source))
    {
      if editor.Some? && widget != null {
        var description := OrElse(editor.value, widget.description);
        requests := requests + [UpdateRequest(widget.id, description, widgetSource)];
        widget.description := description;
        widget.source := widgetSource;
        forceUpdate := now;
      }
      editorDialogOpen := false;
      editor := None;
      textAreaAttached := false;
    }

    /** The update mutation's outcome arrives; nothing of the panel depends on it. */
    method UpdateSettled(ok: bool)
      modifies this`updateResult
      ensures updateResult == Some(ok)
    {
      updateResult := Some(ok);
    }

    /** `closeEditDialog`, the cancel button and the dialog's close event: the
        source buffer goes back to the widget's source and the dialog closes,
        unmounting its content: the textarea ref is cleared and the editor
        effect's cleanup drops the sub-editor. */
    method CloseEditDialog()
      requires Valid()
      modifies this`widgetSource, this`editorDialogOpen, this`editor, this`textAreaAttached
      ensures Valid()
      ensures widget != null ==> widgetSource == widget.source
      ensures widget == null ==> widgetSource == old(widgetSource)
      ensures !editorDialogOpen && editor.None? && !textAreaAttached
    {
      if widget != null {
        widgetSource := widget.source;
      }
      editorDialogOpen := false;
      editor := None;
      textAreaAttached := false;
    }

    /** The Edit control opens the dialog. */
    method OpenEditDialog()
      requires widget != null && VisibleControls(widget.source, isPreview, widget.canConfigure).edit
      modifies this`editorDialogOpen
      ensures editorDialogOpen
    {
      editorDialogOpen := true;
    }

    /** The dialog's source text field changes. */
    method EditSource(text: string)
      requires editorDialogOpen
      modifies this`widgetSource
      ensures widgetSource == text
    {
      widgetSource := text;
    }

    /** The dialog's textarea is attached, and the editor effect builds a
        sub-editor on it seeded with the widget's description. */
    method AttachTextArea()
      requires Valid() && editorDialogOpen
      modifies this`textAreaAttached, this`editor
      ensures Valid() && textAreaAttached
      ensures widget != null ==> editor == Some(widget.description)
      ensures widget == null ==> editor == old(editor)
    {
      textAreaAttached := true;
      if widget != null {
        editor := Some(widget.description);
      }
    }

    /** The user types in the sub-editor. */
    method TypeInEditor(text: string)
      requires Valid() && editor.Some?
      modifies this`editor
      ensures Valid() && editor == Some(text)
    {
      editor := Some(text);
    }

    /** The editor effect's cleanup: sub-editor and textarea are dropped. */
    method EditorCleanup()
      requires Valid()
      modifies this`editor, this`textAreaAttached
      ensures Valid() && editor.None? && !textAreaAttached
    {
      editor := None;
      textAreaAttached := false;
    }

    /** The parent passes another widget: the editor effect's cleanup runs if it
        built an editor, and the source effect copies the new widget's source
        into the buffer (or "" without a widget). */
    method SetWidget(w: Widget?)
      requires Valid()
      modifies this`widget, this`widgetSource, this`editor, this`textAreaAttached
      ensures Valid() && widget == w
      ensures widgetSource == (if w != null then w.source else "")
      ensures old(editor).Some? ==> editor.None? && !textAreaAttached
      ensures old(editor).None? ==> editor.None? && textAreaAttached == old(textAreaAttached)
    {
      widget := w;
      if editor.Some? {
        EditorCleanup();
      }
      SourceSyncEffect();
    }

    /** The source effect: the buffer follows the widget's source. */
    method SourceSyncEffect()
      modifies this`widgetSource
      ensures widgetSource == (if widget != null then widget.source else "")
    {
      if widget != null {
        widgetSource := widget.source;
      } else {
        widgetSource := "";
      }
    }

    /** The delete mutation's outcome arrives. */
    method DeleteSettled(result: DeleteResult)
      modifies this`deleteResult
      ensures deleteResult == result
    {
      deleteResult := result;
    }

    /** The delete-result effect: an error, or data saying the widget was not
        deleted, raises one failure notification; data saying it was deleted
        clears the data and calls `removeSelf` when the host gave one. A widget
        without an id, or no result yet, changes nothing. */
    method DeleteEffect()
      requires widget != null
      modifies this`notifications, this`deleteResult, this`removeSelfCalls
      ensures widget.id == "" || (!old(deleteResult).error && old(deleteResult).data.None?) ==>
        && notifications == old(notifications) && deleteResult == old(deleteResult)
        && removeSelfCalls == old(removeSelfCalls)
      ensures widget.id != "" && (old(deleteResult).error || old(deleteResult).data == Some(false)) ==>
        && notifications == old(notifications) + [FailedToDeleteWidget]
        && deleteResult == old(deleteResult) && removeSelfCalls == old(removeSelfCalls)
      ensures widget.id != "" && !old(deleteResult).error && old(deleteResult).data == Some(true) ==>
        && notifications == old(notifications) && deleteResult == old(deleteResult).(data := None)
        && removeSelfCalls == old(removeSelfCalls) + (if hasRemoveSelf then 1 else 0)
    {
      if widget.id == "" {
        return;
      }
      if deleteResult.error {
        notifications := notifications + [FailedToDeleteWidget];
      } else if deleteResult.data.Some? {
        if deleteResult.data.value {
          deleteResult := deleteResult.(data := None);
          if hasRemoveSelf {
            removeSelfCalls := removeSelfCalls + 1;
          }
        } else {
          notifications := notifications + [FailedToDeleteWidget];
        }
      }
    }

    /** The preview element is attached. */
    method AttachPreview()
      modifies this`previewAttached
      ensures previewAttached
    {
      previewAttached := true;
    }

    /** The preview effect renders the widget's description into the preview element. */
    method PreviewEffect()
      modifies this`previews
      ensures widget != null && previewAttached ==> previews == old(previews) + [widget.description]
      ensures widget == null || !previewAttached ==> previews == old(previews)
    {
      if widget != null && previewAttached {
        previews := previews + [widget.description];
      }
    }

    /** The source link is followed from a page under `origin`. */
    method FollowSourceLink(origin: string)
      requires widget != null && VisibleControls(widget.source, isPreview, widget.canConfigure).sourceLink
      modifies this`navigations
      ensures navigations == old(navigations) + [SourceLinkTarget(widget.source, origin)]
    {
      if StartsWith(widget.source, origin) {
        ReplacePrefixStrips(widget.source, origin);
        navigations := navigations + [InApp(ReplaceFirst(widget.source, origin, ""))];
      } else {
        navigations := navigations + [External(widget.source)];
      }
    }
  }

  /** A whole edit: open the dialog, type a source and a description, save, and
      let the update fail. The widget keeps the new values (there is no
      rollback), the preview shows the new description, and a later cancel
      shows the saved source. */
  method EditSaveAndFail(p: TopPanel, source: string, text: string, now: int)
    requires p.Valid() && p.widget != null && !p.isPreview && p.widget.canConfigure
    requires p.previewAttached
    modifies p, p.widget
    ensures p.Valid() && p.widget == old(p.widget) && !p.editorDialogOpen && p.editor.None?
    ensures p.widget.source == source && p.widget.description == OrElse(text, old(p.widget.description))
    ensures p.updateResult == Some(false) && p.widgetSource == source
    ensures p.requests == old(p.requests) + [UpdateRequest(p.widget.id, p.widget.description, source)]
    ensures p.previews == old(p.previews) + [p.widget.description]
  {
    p.OpenEditDialog();
    p.AttachTextArea();
    p.TypeInEditor(text);
    p.EditSource(source);
    p.UpdateWidget(now);
    p.UpdateSettled(false);
    p.PreviewEffect();
    p.CloseEditDialog();
  }

  /** A confirmed delete removes the widget once: a second run of the effect on
      the cleared result does not call `removeSelf` again. */
  method DeleteConfirmedOnce(p: TopPanel)
    requires p.Valid() && p.widget != null && p.widget.id != "" && p.hasRemoveSelf
    modifies p
    ensures p.widget == old(p.widget)
    ensures p.requests == old(p.requests) + [DeleteRequest(p.widget.id)]
    ensures p.removeSelfCalls == old(p.removeSelfCalls) + 1
    ensures p.notifications == old(p.notifications)
  {
    p.DeleteWidget();
    p.DeleteSettled(DeleteResult(false, Some(true)));
    p.DeleteEffect();
    p.DeleteEffect();
  }
}
