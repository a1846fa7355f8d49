/**
 * `ActionForm`: a form with a content message and a list of buttons, each
 * with a text and an optional icon, built with chained setters.
 */
module ActionForms {
  import opened Wrappers

  /** A `Message`: plain text, or a translation key with its parameters. */
  datatype Message = Text(text: string) | Translatable(key: string, params: seq<string>)

  /** The default-constructed `Message`: the empty text. */
  const EmptyMessage: Message := Text("")

  /** The value of one button as the form's `buttons_` vector stores it. */
  datatype ButtonData = ButtonData(text: Message, icon: Option<string>)

  /** `ActionForm::Button`. */
  class Button {
    var text: Message
    var icon: Option<string>

    /** `Button()`: empty text, no icon. */
    constructor Empty()
      ensures text == EmptyMessage && icon == None
    {
      text := EmptyMessage;
      icon := None;
    }

    /** `Button(text, icon = std::nullopt)`. */
    constructor (text: Message, icon: Option<string> := None)
      ensures this.text == text && this.icon == icon
    {
      this.text := text;
      this.icon := icon;
    }

    /** `getText`. */
    function GetText(): Message
      reads this
    {
      text
    }

    /** `getIcon`. */
    function GetIcon(): Option<string>
      reads this
    {
      icon
    }

    /** The button's value, as copied into a form. */
    function Data(): ButtonData
      reads this
    {
      ButtonData(text, icon)
    }

    /** `setText`: the text becomes `t`, the icon stays, and the button itself is returned. */
    method SetText(t: Message) returns (r: Button)
      modifies this
      ensures r == this
      ensures GetText() == t && GetIcon() == old(GetIcon())
    {
      text := t;
      r := this;
    }

    /** `setIcon`: the icon becomes `Some(s)`, the text stays, and the button itself is returned. */
    method SetIcon(s: string) returns (r: Button)
      modifies this
      ensures r == this
      ensures GetIcon() == Some(s) && GetText() == old(GetText())
    {
      icon := Some(s);
      r := this;
    }
  }

  /** `ActionForm`, without the title it inherits from `Form`. */
  class ActionForm {
    var content: Message
    var buttons: seq<ButtonData>

    /** A new form: empty content, no buttons. */
    constructor ()
      ensures content == EmptyMessage && buttons == []
    {
      content := EmptyMessage;
      buttons := [];
    }

    /** `getContent`. */
    function GetContent(): Message
      reads this
    {
      content
    }

    /** `getButtons`. */
    function GetButtons(): seq<ButtonData>
      reads this
    {
      buttons
    }

    /** `setContent`: the content becomes `t`, the buttons stay, and the form itself is returned. */
    method SetContent(t: Message) returns (r: ActionForm)
      modifies this
      ensures r == this
      ensures GetContent() == t && GetButtons() == old(GetButtons())
    {
      content := t;
      r := this;
    }

    /**
     * `addButton`: exactly one button with that text and icon is appended;
     * the earlier buttons and the content stay; the form itself is returned.
     */
    method AddButton(text: Message, icon: Option<string> := None) returns (r: ActionForm)
      modifies this
      ensures r == this
      ensures |GetButtons()| == |old(GetButtons())| + 1
      ensures GetButtons()[..|old(GetButtons())|] == old(GetButtons())
      ensures GetButtons()[|old(GetButtons())|] == ButtonData(text, icon)
      ensures GetContent() == old(GetContent())
    {
      buttons := buttons + [ButtonData(text, icon)];
      r := this;
    }

    /** `setButtons`: the buttons become copies of `bs`, the content stays, and the form itself is returned. */
    method SetButtons(bs: seq<ButtonData>) returns (r: ActionForm)
      modifies this
      ensures r == this
      ensures GetButtons() == bs && GetContent() == old(GetContent())
    {
      buttons := bs;
      r := this;
    }
  }

  /**
   * Chained calls compose as sequential updates of one form:
   * `form.setContent(c).addButton(t, i)` leaves the content `c` and one more
   * button, and a standalone button built with `setText` and `setIcon` can be
   * copied in with `setButtons`.
   */
  method ChainedBuild(form: ActionForm, c: Message, t: Message, i: Option<string>, b: Button, bt: Message, bi: string)
    returns (r: ActionForm)
    modifies form, b
    ensures r == form
    ensures form.GetContent() == c
    ensures b.Data() == ButtonData(bt, Some(bi))
    ensures form.GetButtons() == [ButtonData(bt, Some(bi)), ButtonData(t, i)]
  {
    var b1 := b.SetText(bt);
    var b2 := b1.SetIcon(bi);
    var f1 := form.SetButtons([b2.Data()]);
    var f2 := f1.SetContent(c);
    r := f2.AddButton(t, i);
  }
}
