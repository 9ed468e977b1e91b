/** The tag keys every resource the system creates carries (the constants module itself is not part of this model). */
module Constants {
  const ClusternatorTag: string := "clusternator"
  const ProjectTag: string := "project"
  const PrTag: string := "pr"
  const DeploymentTag: string := "deployment"
}
