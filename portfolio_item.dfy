/** A portfolio project as the API returns it: the columns of the `portfolio` table, each field
    possibly missing except the image path, which the pages read unconditionally. */
module PortfolioItems {
  import opened Js

  datatype Item = Item(
    id: Option<nat>,
    title: Option<string>,
    category: Option<string>,
    image: string,
    description: Option<string>,
    techStack: Option<string>,
    projectUrl: Option<string>,
    isFeatured: Option<bool>)
}
