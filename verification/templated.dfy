/**
  The role-templated public page: which endpoint supplies the data, and
  which template renders it.
*/
module Templated {
  import opened Wrappers
  import opened Text
  import opened Schema
  import PublicPage

  /** The signed-in user as the client keeps it. */
  datatype SessionUser = SessionUser(id: string, username: string, email: string, name: string)

  datatype Endpoint = OwnPortfolio | PublicByName

  /** The authenticated endpoint is used exactly when the signed-in user's name equals the route's, case and all. */
  function ChooseEndpoint(user: Option<SessionUser>, username: string): (r: Endpoint)
    ensures r == OwnPortfolio <==> user.Some? && username != "" && user.value.username == username
  {
    if user.Some? && username != "" && user.value.username == username then OwnPortfolio else PublicByName
  }

  /** The own row is shown with the session user's name attached, as the public endpoint would attach it. */
  function OwnPage(user: SessionUser, row: Portfolio): (r: PublicPortfolio)
    ensures r.portfolio == row && r.username == user.username && r.name == user.name
  {
    PublicPortfolio(row, user.username, user.name)
  }

  /**
    The page reached from the route, the session and the outcome of
    whichever fetch the endpoint choice makes.
  */
  function Settle(user: Option<SessionUser>, username: string,
                  own: PublicPage.Fetch<Portfolio>, public: PublicPage.Fetch<PublicPortfolio>): (r: PublicPage.Page<PublicPortfolio>)
    ensures username == "" ==> r.Loading?
    ensures ChooseEndpoint(user, username) == PublicByName ==> r == PublicPage.Settle(username, public)
    ensures ChooseEndpoint(user, username) == OwnPortfolio && own.Got? && own.data.Some? ==>
      r == PublicPage.Show(OwnPage(user.value, own.data.value))
    ensures username != "" ==> (r.NotFound? <==>
      if ChooseEndpoint(user, username) == OwnPortfolio then own == PublicPage.Threw || own == PublicPage.Got(None)
      else public == PublicPage.Threw || public == PublicPage.Got(None))
  {
    if ChooseEndpoint(user, username) == OwnPortfolio then
      match own
      case Threw => PublicPage.NotFound
      case Got(None) => PublicPage.NotFound
      case Got(Some(row)) => PublicPage.Show(OwnPage(user.value, row))
    else PublicPage.Settle(username, public)
  }

  datatype Template = DeveloperTemplate | PremiumTemplate | TesterTemplate | AIMLTemplate | DataAnalystTemplate

  /** The role switch; an empty role counts as "developer", and every unlisted value falls to the default. */
  function TemplateFor(role: string): (r: Template)
    ensures r == PremiumTemplate <==> role == "premium"
    ensures r == TesterTemplate <==> role == "tester"
    ensures r == AIMLTemplate <==> role == "ai_ml"
    ensures r == DataAnalystTemplate <==> role == "data_analyst"
  {
    var effective := if role == "" then DefaultRole else role;
    match effective
    case "premium" => PremiumTemplate
    case "tester" => TesterTemplate
    case "ai_ml" => AIMLTemplate
    case "data_analyst" => DataAnalystTemplate
    case _ => DeveloperTemplate
  }

  /** Four of the nine schema roles, and the empty role, render with the developer template. */
  lemma DeveloperIsDefault()
    ensures TemplateFor("") == DeveloperTemplate
    ensures TemplateFor("developer") == DeveloperTemplate
    ensures TemplateFor("minimal") == DeveloperTemplate
    ensures TemplateFor("creative") == DeveloperTemplate
    ensures TemplateFor("modern") == DeveloperTemplate
    ensures TemplateFor("compact") == DeveloperTemplate
  {
  }

  /** The developer template is chosen exactly for the roles without a template of their own. */
  lemma DeveloperIff(role: string)
    ensures TemplateFor(role) == DeveloperTemplate <==> role !in ["premium", "tester", "ai_ml", "data_analyst"]
  {
  }
}
