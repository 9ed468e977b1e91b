/**
 * The application definition handed to the ECS task-service manager (whose own code is not part
 * of this model): a name and the task definitions it carries, kept opaque.
 */
module Tasks {
  datatype AppDef = AppDef(name: string, definition: string)
}
