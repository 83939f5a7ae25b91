/** frontend/pages/admin/DnaManager.tsx: the administrator's editor for the "What defines us" cards. */
module DnaManager {
  import opened Js
  import opened Admin

  /** `Partial<DnaItem>` */
  datatype Draft = Draft(id: Option<nat>, title: Option<string>, description: Option<string>, image: Option<string>)

  /** `{}`, which is also what 'Add Item' opens. */
  const Blank := Draft(None, None, None, None)

  /** The form `handleSave` sends, in the order it appends the fields. */
  function SaveForm(d: Draft, file: Option<File>): seq<Field> {
    TextFields(d) + ImageField(d.image, file)
  }

  function TextFields(d: Draft): (fs: seq<Field>)
    ensures |fs| == 2
  {
    [Field("title", Text(Or(d.title, ""))), Field("description", Text(Or(d.description, "")))]
  }

  /** What the server reads from the form: title and description, '' when missing, and the chosen
      file in preference to the existing image, or no image. */
  lemma SaveFormFields(d: Draft, file: Option<File>)
    ensures FormValue(SaveForm(d, file), "title") == Some(Text(Or(d.title, "")))
    ensures FormValue(SaveForm(d, file), "description") == Some(Text(Or(d.description, "")))
    ensures FormValue(SaveForm(d, file), "image") ==
      if file.Some? then Some(Upload(file.value))
      else if Truthy(d.image) then Some(Text(d.image.value))
      else None
  {
    var t := TextFields(d);
    var rest := ImageField(d.image, file);
    FormValueAt(t, 0);
    FormValueAt(t, 1);
    FormValueConcat(t, rest, "title");
    FormValueConcat(t, rest, "description");
    FormValueConcat(t, rest, "image");
    assert FormValue(t, "image") == None;
  }

  class Editor {
    var isEditing: bool
    var currentItem: Draft
    var imageFile: Option<File>

    constructor()
      ensures !isEditing && currentItem == Blank && imageFile == None
    {
      isEditing := false;
      currentItem := Blank;
      imageFile := None;
    }

    /** 'Add Item' */
    method StartNew()
      modifies this
      ensures isEditing && currentItem == Blank && imageFile == None
    {
      isEditing := true;
      currentItem := Blank;
      imageFile := None;
    }

    /** `handleSave`, answered by `reply`. */
    method Save(reply: Reply) returns (req: Request, effects: seq<Effect>)
      modifies this
      ensures var target := SaveTarget("dna", old(currentItem.id));
        req == Request(target.0, target.1, Form(SaveForm(old(currentItem), old(imageFile))))
      ensures effects == Effects(reply, ContentApi + "/dna", "Failed to save item")
      ensures reply.Status? && Ok(reply.code) ==> !isEditing && currentItem == Blank && imageFile == None
      ensures !(reply.Status? && Ok(reply.code)) ==>
        isEditing == old(isEditing) && currentItem == old(currentItem) && imageFile == old(imageFile)
    {
      var form: seq<Field> := [];
      form := form + [Field("title", Text(Or(currentItem.title, "")))];
      form := form + [Field("description", Text(Or(currentItem.description, "")))];
      if imageFile.Some? {
        form := form + [Field("image", Upload(imageFile.value))];
      } else if Truthy(currentItem.image) {
        form := form + [Field("image", Text(currentItem.image.value))];
      }
      assert form == SaveForm(currentItem, imageFile);
      var target := SaveTarget("dna", currentItem.id);
      req := Request(target.0, target.1, Form(form));
      effects := Effects(reply, ContentApi + "/dna", "Failed to save item");
      if reply.Status? && Ok(reply.code) {
        isEditing := false;
        currentItem := Blank;
        imageFile := None;
      }
    }
  }
}
