/** frontend/pages/admin/PortfolioManager.tsx: the administrator's portfolio editor. */
module PortfolioManager {
  import opened Js
  import opened Seqs
  import opened Admin
  import opened PortfolioItems
  import PortfolioPage

  /** `Partial<PortfolioItem>`: the project open in the editor; every field may be missing. */
  datatype Draft = Draft(
    id: Option<nat>,
    title: Option<string>,
    category: Option<string>,
    image: Option<string>,
    description: Option<string>,
    projectUrl: Option<string>,
    techStack: Option<string>,
    isFeatured: Option<bool>)

  /** `{}` */
  const Blank := Draft(None, None, None, None, None, None, None, None)

  const DefaultCategory := "Brand Solutions"

  /** What 'Add Project' opens: `{ category: 'Brand Solutions' }`. */
  const NewProject := Blank.(category := Some(DefaultCategory))

  /** A fetched project opened for editing. */
  function DraftOf(it: Item): Draft {
    Draft(it.id, it.title, it.category, Some(it.image), it.description, it.projectUrl, it.techStack, it.isFeatured)
  }

  /** The categories the editor offers: the page's categories without 'All'. */
  function EditorCategories(): (cs: seq<string>)
    ensures cs == ["Brand Solutions", "Tech Solutions", "Media Solutions", "Others"]
  {
    var all := PortfolioPage.Categories;
    var p := (c: string) => c != "All";
    assert all == ["All"] + all[1..];
    assert Filter(all, p) == Filter(all[1..], p);
    FilterAll(all[1..], p);
    Filter(all, p)
  }

  /** The form `handleSave` sends, in the order it appends the fields. */
  function SaveForm(d: Draft, file: Option<File>): seq<Field> {
    TextFields(d) + ImageField(d.image, file)
  }

  /** The six fields every save carries. */
  function TextFields(d: Draft): (fs: seq<Field>)
    ensures |fs| == 6
  {
    [Field("title", Text(Or(d.title, ""))),
     Field("category", Text(Or(d.category, DefaultCategory))),
     Field("description", Text(Or(d.description, ""))),
     Field("project_url", Text(Or(d.projectUrl, ""))),
     Field("tech_stack", Text(Or(d.techStack, ""))),
     Field("is_featured", Text(if IsTrue(d.isFeatured) then "true" else "false"))]
  }

  /** What the server reads from the form: every text field with its default filled in and the
      featured flag as "true" or "false". */
  lemma SaveFormText(d: Draft, file: Option<File>)
    ensures FormValue(SaveForm(d, file), "title") == Some(Text(Or(d.title, "")))
    ensures FormValue(SaveForm(d, file), "category") == Some(Text(Or(d.category, "Brand Solutions")))
    ensures FormValue(SaveForm(d, file), "description") == Some(Text(Or(d.description, "")))
    ensures FormValue(SaveForm(d, file), "project_url") == Some(Text(Or(d.projectUrl, "")))
    ensures FormValue(SaveForm(d, file), "tech_stack") == Some(Text(Or(d.techStack, "")))
    ensures FormValue(SaveForm(d, file), "is_featured") == Some(Text(if d.isFeatured == Some(true) then "true" else "false"))
  {
    TextFieldRead(d, file, 0);
    TextFieldRead(d, file, 1);
    TextFieldRead(d, file, 2);
    TextFieldRead(d, file, 3);
    TextFieldRead(d, file, 4);
    TextFieldRead(d, file, 5);
  }

  lemma TextFieldRead(d: Draft, file: Option<File>, i: nat)
    requires i < 6
    ensures FormValue(SaveForm(d, file), TextFields(d)[i].name) == Some(TextFields(d)[i].part)
  {
    var t := TextFields(d);
    FormValueAt(t, i);
    FormValueConcat(t, ImageField(d.image, file), t[i].name);
  }

  /** The image the server reads: the chosen file in preference to the existing URL, or none. */
  lemma SaveFormImage(d: Draft, file: Option<File>)
    ensures FormValue(SaveForm(d, file), "image") ==
      if file.Some? then Some(Upload(file.value))
      else if Truthy(d.image) then Some(Text(d.image.value))
      else None
  {
    var t := TextFields(d);
    var rest := ImageField(d.image, file);
    FormValueConcat(t, rest, "image");
    assert FormValue(t, "image") == None;
  }

  /** The editor's state. */
  class Editor {
    var portfolio: seq<Item>
    var selectedCategory: string
    var filtered: seq<Item>
    var isEditing: bool
    var currentItem: Draft
    var imageFile: Option<File>

    constructor()
      ensures portfolio == [] && selectedCategory == "All" && filtered == []
      ensures !isEditing && currentItem == Blank && imageFile == None
    {
      portfolio := [];
      selectedCategory := "All";
      filtered := [];
      isEditing := false;
      currentItem := Blank;
      imageFile := None;
    }

    /** The effect that runs whenever the selected category or the fetched list changes. */
    method Refilter()
      modifies this
      ensures filtered == PortfolioPage.Visible(portfolio, selectedCategory)
      ensures portfolio == old(portfolio) && selectedCategory == old(selectedCategory)
      ensures isEditing == old(isEditing) && currentItem == old(currentItem) && imageFile == old(imageFile)
    {
      if selectedCategory == "All" {
        filtered := portfolio;
      } else {
        filtered := Filter(portfolio, PortfolioPage.InCategory(selectedCategory));
      }
    }

    method SelectCategory(c: string)
      modifies this
      ensures selectedCategory == c && filtered == PortfolioPage.Visible(portfolio, c)
      ensures portfolio == old(portfolio)
      ensures isEditing == old(isEditing) && currentItem == old(currentItem) && imageFile == old(imageFile)
    {
      selectedCategory := c;
      Refilter();
    }

    /** `fetchPortfolio` answered with `data`. */
    method Loaded(data: seq<Item>)
      modifies this
      ensures portfolio == data && filtered == PortfolioPage.Visible(data, selectedCategory)
      ensures selectedCategory == old(selectedCategory)
      ensures isEditing == old(isEditing) && currentItem == old(currentItem) && imageFile == old(imageFile)
    {
      portfolio := data;
      Refilter();
    }

    /** 'Add Project' */
    method StartNew()
      modifies this
      ensures isEditing && currentItem == NewProject && imageFile == None
      ensures portfolio == old(portfolio) && selectedCategory == old(selectedCategory) && filtered == old(filtered)
    {
      isEditing := true;
      currentItem := NewProject;
      imageFile := None;
    }

    /** The edit button of a card. */
    method StartEdit(it: Item)
      modifies this
      ensures isEditing && currentItem == DraftOf(it) && imageFile == None
      ensures portfolio == old(portfolio) && selectedCategory == old(selectedCategory) && filtered == old(filtered)
    {
      currentItem := DraftOf(it);
      isEditing := true;
      imageFile := None;
    }

    /** `handleSave`, answered by `reply`: returns the request it sends and what it does besides. */
    method Save(reply: Reply) returns (req: Request, effects: seq<Effect>)
      modifies this
      ensures var target := SaveTarget("portfolio", old(currentItem.id));
        req == Request(target.0, target.1, Form(SaveForm(old(currentItem), old(imageFile))))
      ensures effects == Effects(reply, ContentApi + "/portfolio", "Failed to save project")
      ensures reply.Status? && Ok(reply.code) ==> !isEditing && currentItem == Blank && imageFile == None
      ensures !(reply.Status? && Ok(reply.code)) ==>
        isEditing == old(isEditing) && currentItem == old(currentItem) && imageFile == old(imageFile)
      ensures portfolio == old(portfolio) && selectedCategory == old(selectedCategory) && filtered == old(filtered)
    {
      var form: seq<Field> := [];
      form := form + [Field("title", Text(Or(currentItem.title, "")))];
      form := form + [Field("category", Text(Or(currentItem.category, DefaultCategory)))];
      form := form + [Field("description", Text(Or(currentItem.description, "")))];
      form := form + [Field("project_url", Text(Or(currentItem.projectUrl, "")))];
      form := form + [Field("tech_stack", Text(Or(currentItem.techStack, "")))];
      form := form + [Field("is_featured", Text(if IsTrue(currentItem.isFeatured) then "true" else "false"))];
      assert form == TextFields(currentItem);
      if imageFile.Some? {
        form := form + [Field("image", Upload(imageFile.value))];
      } else if Truthy(currentItem.image) {
        form := form + [Field("image", Text(currentItem.image.value))];
      }
      assert form == SaveForm(currentItem, imageFile);
      var target := SaveTarget("portfolio", currentItem.id);
      req := Request(target.0, target.1, Form(form));
      effects := Effects(reply, ContentApi + "/portfolio", "Failed to save project");
      if reply.Status? && Ok(reply.code) {
        isEditing := false;
        currentItem := Blank;
        imageFile := None;
      }
    }
  }
}
