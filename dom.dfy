/** What the scripts read off a loaded page: anchors, each with its text content and
    its resolved `href` (the empty string when the element has no `href`). */
module Dom {

  datatype Anchor = Anchor(text: string, href: string)
}
